/**
 Recycling is invisible to matching. The same program with thresholds that are
 never met is one endless run; as long as no recycling sheds a courier report,
 the chain of runs makes the same pairings on the same deliveries.
 */
module DispatchRefinement {
  import opened DispatchModel
  import opened DispatchLedger

  /** Which courier was used, if a reported one. */
  function Blur(pick: Pick): Pick {
    if pick.Real? then pick else Synthetic("", 0)
  }

  function Pairings(out: seq<Command>): seq<(Order, Pick)>
    decreases |out|
  {
    if out == [] then []
    else Pairings(out[..|out| - 1]) +
         match out[|out| - 1] {
           case AssignCourier(order, pick) => [(order, Blur(pick))]
           case _ => []
         }
  }

  lemma PairingsAppend(out: seq<Command>, x: Command)
    ensures Pairings(out + [x]) ==
            if x.AssignCourier? then Pairings(out) + [(x.order, Blur(x.pick))] else Pairings(out)
  {
    assert (out + [x])[..|out|] == out;
  }

  function BlurPoint(at: Point): Point {
    match at
    case Assign(order, pick) => Assign(order, Blur(pick))
    case Notify(order, pick) => Notify(order, Blur(pick))
    case _ => at
  }

  ghost predicate Alike(c: Core, d: Core) {
    && c.pending == d.pending && c.couriers == d.couriers && c.degradation == d.degradation
    && Pairings(c.out) == Pairings(d.out)
  }

  /** The chain and the single run agree on everything matching depends on. What
      is published may differ while markers run, until the flip is noticed. */
  ghost predicate Agree(m: Machine, r: Machine) {
    && Alike(m.core, r.core)
    && BlurPoint(m.at) == BlurPoint(r.at)
    && (!m.at.Noop? && !m.at.Sleep? ==> m.core.published == r.core.published)
    && (m.at.Wait? ==> m.core.pending == [] && m.core.published == m.core.degradation.Status())
  }

  predicate NothingShed(out: seq<Command>) {
    Books(out).shed == []
  }

  lemma PublishKeeps(c: Core)
    ensures Pairings(Publish(c).out) == Pairings(c.out)
    ensures Books(Publish(c).out).shed == Books(c.out).shed
  {
    PairingsAppend(c.out, UpsertStatus(c.degradation.Status(), |c.pending|));
    BooksAppend(c.out, UpsertStatus(c.degradation.Status(), |c.pending|));
  }

  lemma PublishAlike(c: Core, d: Core)
    requires Alike(c, d)
    ensures Alike(Publish(c), Publish(d))
    ensures Publish(c).published == Publish(d).published == c.degradation.Status()
    ensures Books(Publish(c).out).shed == Books(c.out).shed
  {
    PublishKeeps(c);
    PublishKeeps(d);
  }

  lemma BumpKeeps(c: Core)
    ensures Pairings(Bump(c).out) == Pairings(c.out)
    ensures Books(Bump(c).out).shed == Books(c.out).shed
  {
    PairingsAppend(c.out, RunNoop(c.sequence + 1));
    BooksAppend(c.out, RunNoop(c.sequence + 1));
  }

  lemma BumpAlike(c: Core, d: Core)
    requires Alike(c, d)
    ensures Alike(Bump(c), Bump(d))
    ensures Books(Bump(c).out).shed == Books(c.out).shed
  {
    BumpKeeps(c);
    BumpKeeps(d);
  }

  lemma RestKeepsShed(c: Core)
    ensures Books(Rest(c).core.out).shed == Books(c.out).shed
  {
    PublishKeeps(c);
    BumpKeeps(c);
  }

  lemma RestAgrees(c: Core, d: Core)
    requires Alike(c, d) && c.pending == []
    ensures Agree(Rest(c), Rest(d))
    ensures Books(Rest(c).core.out).shed == Books(c.out).shed
  {
    RestKeepsShed(c);
    if c.degradation.inflateHistory {
      BumpAlike(c, d);
    } else {
      PublishAlike(c, d);
    }
  }

  lemma RecyclingPairs(c: Core)
    ensures Pairings(NewRun(c).out) == Pairings(c.out)
  {
    PairingsAppend(c.out, Recycled(c));
  }

  lemma RecyclingSheds(c: Core)
    ensures Books(NewRun(c).out).shed == Books(c.out).shed + Recycled(c).dropped
  {
    BooksAppend(c.out, Recycled(c));
  }

  lemma NewRunAlike(c: Core, d: Core)
    requires Alike(c, d) && NothingShed(NewRun(c).out)
    ensures Alike(NewRun(c), d)
  {
    RecyclingPairs(c);
    RecyclingSheds(c);
    assert |Recycled(c).dropped| == 0;
  }

  lemma ShedGrows(b: Bounds, c: Core)
    ensures |Books(c.out).shed| <= |Books(Drain(b, c).core.out).shed|
    ensures c.pending == [] && Recycles(b, c) ==> Books(Drain(b, c).core.out).shed == Books(NewRun(c).out).shed
  {
    if c.pending != [] {
      BooksAppend(c.out, AssignCourier(Take(c).at.order, Take(c).at.pick));
    } else if Recycles(b, c) {
      RecyclingSheds(c);
      RestKeepsShed(NewRun(c));
    } else {
      RestKeepsShed(c);
    }
  }

  lemma TakePairs(c: Core)
    requires c.pending != []
    ensures Pairings(Take(c).core.out) == Pairings(c.out) + [(Take(c).at.order, Blur(Take(c).at.pick))]
  {
    PairingsAppend(c.out, AssignCourier(Take(c).at.order, Take(c).at.pick));
  }

  lemma TakeAgrees(c: Core, d: Core)
    requires Alike(c, d) && c.published == d.published && c.pending != []
    ensures Agree(Take(c), Take(d))
  {
    TakePairs(c);
    TakePairs(d);
  }

  lemma RecycleAgrees(c: Core, d: Core)
    requires Alike(c, d) && c.pending == [] && Recycles(Thresholds, c)
    requires NothingShed(Drain(Thresholds, c).core.out)
    ensures Agree(Recycle(c), Rest(d))
  {
    ShedGrows(Thresholds, c);
    NewRunAlike(c, d);
    RestAgrees(NewRun(c), d);
  }

  lemma DrainAgrees(c: Core, d: Core)
    requires Alike(c, d) && c.published == d.published
    requires NothingShed(Drain(Thresholds, c).core.out)
    ensures Agree(Drain(Thresholds, c), Drain(Unbounded, d))
  {
    if c.pending != [] {
      TakeAgrees(c, d);
    } else if Recycles(Thresholds, c) {
      RecycleAgrees(c, d);
    } else {
      RestAgrees(c, d);
    }
  }

  lemma DeliverAlike(c: Core, d: Core, batch: seq<Signal>)
    requires Alike(c, d)
    ensures Alike(Deliver(c, batch), Deliver(d, batch))
    ensures Deliver(c, batch).published == c.published && Deliver(d, batch).published == d.published
    ensures Deliver(c, batch).out == c.out
  {
    DeliverAppends(c, batch);
    DeliverAppends(d, batch);
  }

  lemma AnswerAgrees(c: Core, d: Core, at: Point, at': Point)
    requires at.Assign? && Agree(Machine(c, at), Machine(d, at'))
    ensures Agree(Resume(Thresholds, c, at), Resume(Unbounded, d, at'))
  {
    PairingsAppend(c.out, SignalOrder(at.order.workflowId, at.pick.Name()));
    PairingsAppend(d.out, SignalOrder(at'.order.workflowId, at'.pick.Name()));
  }

  lemma ServedAgrees(c: Core, d: Core)
    requires Alike(c, d) && c.published == d.published
    requires NothingShed(Drain(Thresholds, c.(processed := c.processed + 1)).core.out)
    ensures Agree(Drain(Thresholds, c.(processed := c.processed + 1)),
                  Drain(Unbounded, d.(processed := d.processed + 1)))
  {
    DrainAgrees(c.(processed := c.processed + 1), d.(processed := d.processed + 1));
  }

  lemma ResumeAgrees(c: Core, d: Core, at: Point, at': Point)
    requires !at.Wait? && !at'.Wait? && Agree(Machine(c, at), Machine(d, at'))
    requires NothingShed(Resume(Thresholds, c, at).core.out)
    ensures Agree(Resume(Thresholds, c, at), Resume(Unbounded, d, at'))
  {
    if at.Noop? {
      BumpAlike(c, d);
    } else if at.Sleep? {
      PublishAlike(c, d);
      DrainAgrees(Publish(c), Publish(d));
    } else if at.Assign? {
      AnswerAgrees(c, d, at, at');
    } else {
      ServedAgrees(c, d);
    }
  }

  lemma WakeAgrees(c: Core, d: Core)
    requires Alike(c, d) && c.published == d.published
    requires NothingShed(Drain(Thresholds, Publish(c)).core.out)
    requires Wakes(Thresholds, c)
    ensures Agree(Drain(Thresholds, Publish(c)),
                  if Wakes(Unbounded, d) then Drain(Unbounded, Publish(d)) else Machine(d, Wait))
  {
    PublishAlike(c, d);
    DrainAgrees(Publish(c), Publish(d));
  }

  lemma StepAgrees(m: Machine, r: Machine, a: Activation)
    requires Agree(m, r)
    requires NothingShed(Step(Thresholds, m, a).core.out)
    ensures Agree(Step(Thresholds, m, a), Step(Unbounded, r, a))
  {
    var c0, d0 := m.core.(history := a.history), r.core.(history := a.history);
    DeliverAlike(c0, d0, a.signals);
    var c, d := Deliver(c0, a.signals), Deliver(d0, a.signals);
    if !m.at.Wait? {
      if a.done {
        ResumeAgrees(c, d, m.at, r.at);
      }
    } else if Wakes(Thresholds, c) {
      WakeAgrees(c, d);
    }
  }

  lemma QuietKeepsShed(c: Core, x: Command)
    requires x.RunNoop? || x.SignalOrder?
    ensures Books(Emit(c, x).out).shed == Books(c.out).shed
  {
    BooksAppend(c.out, x);
  }

  lemma WakeShedGrows(b: Bounds, c: Core)
    ensures |Books(c.out).shed| <= |Books(Drain(b, Publish(c)).core.out).shed|
  {
    PublishKeeps(c);
    ShedGrows(b, Publish(c));
  }

  lemma ResumeShedGrows(b: Bounds, c: Core, at: Point)
    requires !at.Wait?
    ensures |Books(c.out).shed| <= |Books(Resume(b, c, at).core.out).shed|
  {
    if at.Noop? {
      BumpKeeps(c);
    } else if at.Sleep? {
      WakeShedGrows(b, c);
    } else if at.Assign? {
      QuietKeepsShed(c, SignalOrder(at.order.workflowId, at.pick.Name()));
    } else {
      var d := c.(processed := c.processed + 1);
      ShedGrows(b, d);
      assert Resume(b, c, at) == Drain(b, d);
    }
  }

  lemma StepShedGrows(b: Bounds, m: Machine, a: Activation)
    ensures |Books(m.core.out).shed| <= |Books(Step(b, m, a).core.out).shed|
  {
    DeliverAppends(m.core.(history := a.history), a.signals);
    var c := Deliver(m.core.(history := a.history), a.signals);
    if m.at.Wait? {
      WakeShedGrows(b, c);
    } else {
      ResumeShedGrows(b, c, m.at);
    }
  }

  lemma {:induction false} RunShedGrows(b: Bounds, m: Machine, es: seq<Activation>)
    ensures |Books(m.core.out).shed| <= |Books(Run(b, m, es).core.out).shed|
    decreases |es|
  {
    if es == [] {
    } else {
      StepShedGrows(b, m, es[0]);
      RunShedGrows(b, Step(b, m, es[0]), es[1..]);
    }
  }

  lemma {:induction false} RunAgrees(m: Machine, r: Machine, es: seq<Activation>)
    requires Agree(m, r)
    requires NothingShed(Run(Thresholds, m, es).core.out)
    ensures Agree(Run(Thresholds, m, es), Run(Unbounded, r, es))
    decreases |es|
  {
    if es == [] {
    } else {
      RunShedGrows(Thresholds, Step(Thresholds, m, es[0]), es[1..]);
      StepAgrees(m, r, es[0]);
      RunAgrees(Step(Thresholds, m, es[0]), Step(Unbounded, r, es[0]), es[1..]);
    }
  }

  /** The chain of runs pairs orders with reported couriers exactly as one run
      that never recycles, and has the same queues, mode and await point. */
  lemma ChainMatchesSingleRun(region: string, es: seq<Activation>)
    requires NothingShed(Reached(region, es).core.out)
    ensures var m := Reached(region, es);
            var r := Run(Unbounded, Begin(Unbounded, FreshState(region)), es);
            && Pairings(m.core.out) == Pairings(r.core.out)
            && m.core.pending == r.core.pending && m.core.couriers == r.core.couriers
            && m.core.degradation == r.core.degradation
            && BlurPoint(m.at) == BlurPoint(r.at)
  {
    RunAgrees(Begin(Thresholds, FreshState(region)), Begin(Unbounded, FreshState(region)), es);
  }
}
