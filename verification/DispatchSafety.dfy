/** Safety of one region, over every schedule and any number of runs. */
module DispatchSafety {
  import opened Names
  import opened DispatchModel
  import opened DispatchLedger

  // ----- orders

  /** Orders assigned and answered: all that were taken, but the one in flight. */
  function Served(m: Machine): seq<Order> {
    var taken := Books(m.core.out).taken;
    if InFlight(m.at) == [] || taken == [] then taken else taken[..|taken| - 1]
  }

  lemma {:induction false} OwedFollowsTaken(out: seq<Command>)
    ensures |Books(out).owed| == |Books(out).taken|
    ensures forall i :: 0 <= i < |Books(out).owed| ==> Books(out).owed[i].0 == Books(out).taken[i].workflowId
    decreases |out|
  {
    if out == [] {
    } else {
      OwedFollowsTaken(out[..|out| - 1]);
    }
  }

  /** Every order received is served exactly once and in arrival order, whatever
      arrives at whichever await and however often the region recycles. */
  lemma OrdersServedOnceInOrder(region: string, es: seq<Activation>)
    ensures var m := Reached(region, es);
            && OrdersOf(es) == Served(m) + InFlight(m.at) + m.core.pending
            && |InFlight(m.at)| <= 1
  {
    ReachedBalanced(region, es);
    var m := Reached(region, es);
    var taken := Books(m.core.out).taken;
    if InFlight(m.at) != [] {
      assert taken == taken[..|taken| - 1] + [taken[|taken| - 1]];
    }
  }

  /** The answers sent are, in order, one per order: to its own workflow, naming
      the courier it was assigned. Only the order in flight may still be owed. */
  lemma AnswersMatchAssignments(region: string, es: seq<Activation>)
    ensures var m := Reached(region, es);
            var l := Books(m.core.out);
            && l.owed == l.told + Unanswered(m.at)
            && |l.owed| == |l.taken|
            && forall i :: 0 <= i < |l.owed| ==> l.owed[i].0 == l.taken[i].workflowId
  {
    ReachedBalanced(region, es);
    OwedFollowsTaken(Reached(region, es).core.out);
  }

  lemma {:induction false} LosslessThroughout(out: seq<Command>)
    requires Books(out).lossless
    ensures forall i :: 0 <= i < |out| && out[i].ContinueAsNew? ==> Lossless(out[i])
    decreases |out|
  {
    if out == [] {
    } else {
      LosslessThroughout(out[..|out| - 1]);
    }
  }

  /** No order is carried across continue-as-new: the carried list and the
      stamped backlog are empty, so not one order depends on being carried. */
  lemma RecyclingStrandsNothing(region: string, es: seq<Activation>)
    ensures var out := Reached(region, es).core.out;
            forall i :: 0 <= i < |out| && out[i].ContinueAsNew? ==> Lossless(out[i])
  {
    ReachedBalanced(region, es);
    LosslessThroughout(Reached(region, es).core.out);
  }

  // ----- couriers

  /** `z` interleaves `x` and `y`, keeping the order of each. */
  ghost predicate Merge<T>(z: seq<T>, x: seq<T>, y: seq<T>)
    decreases |z|
  {
    if z == [] then x == [] && y == []
    else
      var last := z[|z| - 1];
      || (x != [] && x[|x| - 1] == last && Merge(z[..|z| - 1], x[..|x| - 1], y))
      || (y != [] && y[|y| - 1] == last && Merge(z[..|z| - 1], x, y[..|y| - 1]))
  }

  lemma MergeLeft<T>(z: seq<T>, x: seq<T>, y: seq<T>, e: T)
    requires Merge(z, x, y)
    ensures Merge(z + [e], x + [e], y)
  {
    assert (z + [e])[..|z|] == z && (x + [e])[..|x|] == x;
  }

  lemma {:induction false} MergeRight<T>(z: seq<T>, x: seq<T>, y: seq<T>, s: seq<T>)
    requires Merge(z, x, y)
    ensures Merge(z + s, x, y + s)
    decreases |s|
  {
    if s == [] {
      assert z + s == z && y + s == y;
    } else {
      var n := |s| - 1;
      MergeRight(z, x, y, s[..n]);
      assert s == s[..n] + [s[n]];
      assert (z + s)[..|z + s| - 1] == z + s[..n] && (y + s)[..|y + s| - 1] == y + s[..n];
    }
  }

  lemma {:induction false} GoneMergesUsedAndShed(out: seq<Command>)
    ensures Merge(Books(out).gone, Books(out).used, Books(out).shed)
    decreases |out|
  {
    if out == [] {
    } else {
      var l, x := Books(out[..|out| - 1]), out[|out| - 1];
      GoneMergesUsedAndShed(out[..|out| - 1]);
      match x {
        case AssignCourier(_, pick) =>
          if pick.Real? {
            MergeLeft(l.gone, l.used, l.shed, pick.id);
          } else {
            assert l.gone + [] == l.gone && l.used + [] == l.used;
          }
        case ContinueAsNew(_, _, _, _, dropped) => MergeRight(l.gone, l.used, l.shed, dropped);
        case _ =>
      }
    }
  }

  /** The pool is a suffix of all availability reports ever received; what came
      before it splits, keeping order, into couriers used and couriers shed. */
  lemma CourierReportsAccounted(region: string, es: seq<Activation>)
    ensures var m := Reached(region, es);
            var l := Books(m.core.out);
            CouriersOf(es) == l.gone + m.core.couriers && Merge(l.gone, l.used, l.shed)
  {
    ReachedBalanced(region, es);
    GoneMergesUsedAndShed(Reached(region, es).core.out);
  }

  /** No two made-up couriers of one run share a name. */
  lemma SyntheticCouriersDistinct(region: string, es: seq<Activation>, i: nat, j: nat)
    requires var picks := Books(Reached(region, es).core.out).runPicks;
             i < j < |picks| && picks[i].Synthetic? && picks[j].Synthetic?
    ensures var picks := Books(Reached(region, es).core.out).runPicks;
            picks[i].Name() != picks[j].Name()
  {
    ReachedBalanced(region, es);
    var m := Reached(region, es);
    if SyntheticCourier(m.core.region, i) == SyntheticCourier(m.core.region, j) {
      SyntheticCourierInjective(m.core.region, i, m.core.region, j);
    }
  }

  // ----- made-up couriers name their region

  /** The region is still `r`, and every courier it ever made up names it. */
  ghost predicate HomeMade(c: Core, r: string) {
    c.region == r && AllHome(c.out, r)
  }

  predicate AllHome(out: seq<Command>, r: string) {
    forall i :: 0 <= i < |out| && out[i].AssignCourier? && out[i].pick.Synthetic? ==> out[i].pick.region == r
  }

  lemma EmitHomeMade(c: Core, x: Command, r: string)
    requires HomeMade(c, r) && (x.AssignCourier? && x.pick.Synthetic? ==> x.pick.region == r)
    ensures HomeMade(Emit(c, x), r)
  {
  }

  lemma PublishHomeMade(c: Core, r: string)
    requires HomeMade(c, r)
    ensures HomeMade(Publish(c), r)
  {
    EmitHomeMade(c, UpsertStatus(c.degradation.Status(), |c.pending|), r);
  }

  lemma RestHomeMade(c: Core, r: string)
    requires HomeMade(c, r)
    ensures HomeMade(Rest(c).core, r)
  {
    PublishHomeMade(c, r);
    EmitHomeMade(c, RunNoop(c.sequence + 1), r);
  }

  lemma DrainHomeMade(b: Bounds, c: Core, r: string)
    requires HomeMade(c, r)
    ensures HomeMade(Drain(b, c).core, r)
  {
    if c.pending != [] {
      EmitHomeMade(c, AssignCourier(Take(c).at.order, Take(c).at.pick), r);
    } else {
      EmitHomeMade(c, Recycled(c), r);
      RestHomeMade(NewRun(c), r);
      RestHomeMade(c, r);
    }
  }

  lemma ResumeHomeMade(b: Bounds, c: Core, at: Point, r: string)
    requires HomeMade(c, r) && !at.Wait?
    ensures HomeMade(Resume(b, c, at).core, r)
  {
    match at {
      case Noop(_) => EmitHomeMade(c, RunNoop(c.sequence + 1), r);
      case Sleep =>
        PublishHomeMade(c, r);
        DrainHomeMade(b, Publish(c), r);
      case Assign(order, pick) => EmitHomeMade(c, SignalOrder(order.workflowId, pick.Name()), r);
      case Notify(_, _) => DrainHomeMade(b, c.(processed := c.processed + 1), r);
    }
  }

  lemma StepHomeMade(b: Bounds, m: Machine, a: Activation, r: string)
    requires HomeMade(m.core, r)
    ensures HomeMade(Step(b, m, a).core, r)
  {
    DeliverAppends(m.core.(history := a.history), a.signals);
    var c := Deliver(m.core.(history := a.history), a.signals);
    if m.at.Wait? {
      PublishHomeMade(c, r);
      DrainHomeMade(b, Publish(c), r);
    } else {
      ResumeHomeMade(b, c, m.at, r);
    }
  }

  lemma {:induction false} RunHomeMade(b: Bounds, m: Machine, es: seq<Activation>, r: string)
    requires HomeMade(m.core, r)
    ensures HomeMade(Run(b, m, es).core, r)
    decreases |es|
  {
    if es == [] {
    } else {
      StepHomeMade(b, m, es[0], r);
      RunHomeMade(b, Step(b, m, es[0]), es[1..], r);
    }
  }

  /** Over every run a region keeps its name, and every courier it makes up bears it. */
  lemma MadeUpCouriersNameRegion(region: string, es: seq<Activation>)
    ensures HomeMade(Reached(region, es).core, region)
  {
    RunHomeMade(Thresholds, Begin(Thresholds, FreshState(region)), es, region);
  }

  // ----- no lost wake-up

  /** A parked region has nothing to do. The last clause is what the wait
      predicate does not say: a full run can only be parked while the published
      status is degraded, so lifting the degradation is itself a wake-up. */
  predicate Sound(m: Machine) {
    m.at.Wait? ==>
      && m.core.pending == [] && !m.core.degradation.inflateHistory
      && m.core.degradation.Status() == m.core.published
      && (!m.core.degradation.suspendCan ==> m.core.history <= 1500)
      && (m.core.processed >= 200 ==> m.core.published == Degraded)
  }

  lemma DrainSound(c: Core)
    ensures Sound(Drain(Thresholds, c))
  {
  }

  lemma StepSound(m: Machine, a: Activation)
    requires Sound(m)
    ensures Sound(Step(Thresholds, m, a))
  {
    var c := Deliver(m.core.(history := a.history), a.signals);
    match m.at {
      case Wait =>
        if Wakes(Thresholds, c) {
          DrainSound(Publish(c));
        } else {
          DeliverAppends(m.core.(history := a.history), a.signals);
        }
      case Sleep => DrainSound(Publish(c));
      case Notify(_, _) => DrainSound(c.(processed := c.processed + 1));
      case _ =>
    }
  }

  lemma {:induction false} RunSound(m: Machine, es: seq<Activation>)
    requires Sound(m)
    ensures Sound(Run(Thresholds, m, es))
    decreases |es|
  {
    if es == [] {
    } else {
      StepSound(m, es[0]);
      RunSound(Step(Thresholds, m, es[0]), es[1..]);
    }
  }

  /** A parked region that may recycle is within both thresholds, although the
      wait predicate never looks at the processed count. */
  lemma NoLostWakeUp(region: string, es: seq<Activation>)
    requires Reached(region, es).at.Wait?
    ensures var c := Reached(region, es).core;
            && c.pending == [] && !c.degradation.inflateHistory
            && c.published == c.degradation.Status()
            && (!c.degradation.suspendCan ==> c.history <= 1500 && c.processed < 200)
  {
    RunSound(Begin(Thresholds, FreshState(region)), es);
  }

  // ----- visible health

  /** FleetStatus as visibility shows it: the last upsert or stamp. */
  function Visible(out: seq<Command>): Status
    decreases |out|
  {
    if out == [] then Healthy
    else match out[|out| - 1]
      case UpsertStatus(status, _) => status
      case ContinueAsNew(_, stamp, _, _, _) => stamp
      case _ => Visible(out[..|out| - 1])
  }

  function Upserts(out: seq<Command>): nat
    decreases |out|
  {
    if out == [] then 0
    else Upserts(out[..|out| - 1]) + if out[|out| - 1].UpsertStatus? then 1 else 0
  }

  /** Every upsert changed what visibility showed. */
  predicate Alternating(out: seq<Command>)
    decreases |out|
  {
    out == [] ||
    (&& Alternating(out[..|out| - 1])
     && (out[|out| - 1].UpsertStatus? ==> out[|out| - 1].status != Visible(out[..|out| - 1])))
  }

  /** Health changes among a batch's degradation signals. */
  function Flips(d: Degradation, batch: seq<Signal>): nat
    decreases |batch|
  {
    if batch == [] then 0
    else if batch[0].SetDegradation? then
      (if batch[0].degradation.Status() != d.Status() then 1 else 0) + Flips(batch[0].degradation, batch[1..])
    else Flips(d, batch[1..])
  }

  function FlipsOf(d: Degradation, es: seq<Activation>): nat
    decreases |es|
  {
    if es == [] then 0
    else Flips(d, es[0].signals) + FlipsOf(LastDegradation(d, es[0].signals), es[1..])
  }

  function Unpublished(c: Core): nat {
    if c.degradation.Status() == c.published then 0 else 1
  }

  ghost predicate Showing(c: Core) {
    Visible(c.out) == c.published && Alternating(c.out)
  }

  lemma EmitShows(out: seq<Command>, x: Command)
    ensures Visible(out + [x]) ==
            match x { case UpsertStatus(s, _) => s case ContinueAsNew(_, s, _, _, _) => s case _ => Visible(out) }
    ensures Upserts(out + [x]) == Upserts(out) + if x.UpsertStatus? then 1 else 0
    ensures Alternating(out + [x]) <==> Alternating(out) && (x.UpsertStatus? ==> x.status != Visible(out))
  {
    assert (out + [x])[..|out|] == out;
  }

  /** Between two awaits: status kept, and each upsert pays off one flip. */
  ghost predicate Follows(c: Core, n: Core) {
    Showing(n) && n.degradation == c.degradation
    && Upserts(n.out) + Unpublished(n) <= Upserts(c.out) + Unpublished(c)
  }

  lemma PublishFollows(c: Core)
    requires Showing(c)
    ensures Follows(c, Publish(c)) && Unpublished(Publish(c)) == 0
  {
    EmitShows(c.out, UpsertStatus(c.degradation.Status(), |c.pending|));
  }

  lemma QuietFollows(c: Core, x: Command)
    requires Showing(c) && (x.RunNoop? || x.AssignCourier? || x.SignalOrder?)
    ensures Follows(c, Emit(c, x))
  {
    EmitShows(c.out, x);
  }

  lemma RestFollows(c: Core)
    requires Showing(c)
    ensures Follows(c, Rest(c).core)
  {
    if c.degradation.inflateHistory {
      QuietFollows(c.(sequence := c.sequence + 1), RunNoop(c.sequence + 1));
    } else {
      PublishFollows(c);
    }
  }

  lemma NewRunFollows(c: Core)
    requires Showing(c)
    ensures Follows(c, NewRun(c)) && Unpublished(NewRun(c)) == 0
  {
    EmitShows(c.out, Recycled(c));
  }

  lemma DrainFollows(c: Core)
    requires Showing(c)
    ensures Follows(c, Drain(Thresholds, c).core)
  {
    if c.pending != [] {
      QuietFollows(c, AssignCourier(Take(c).at.order, Take(c).at.pick));
    } else if Recycles(Thresholds, c) {
      NewRunFollows(c);
      RestFollows(NewRun(c));
    } else {
      RestFollows(c);
    }
  }

  lemma {:induction false} DeliverFlips(c: Core, batch: seq<Signal>)
    ensures Unpublished(Deliver(c, batch)) <= Unpublished(c) + Flips(c.degradation, batch)
    decreases |batch|
  {
    if batch == [] {
    } else {
      DeliverFlips(Handle(c, batch[0]), batch[1..]);
    }
  }

  lemma WakeFollows(c: Core)
    requires Showing(c)
    ensures Follows(c, Drain(Thresholds, Publish(c)).core)
  {
    PublishFollows(c);
    DrainFollows(Publish(c));
  }

  lemma ServedFollows(c: Core)
    requires Showing(c)
    ensures Follows(c, Drain(Thresholds, c.(processed := c.processed + 1)).core)
  {
    DrainFollows(c.(processed := c.processed + 1));
  }

  lemma BumpFollows(c: Core)
    requires Showing(c)
    ensures Follows(c, Bump(c))
  {
    QuietFollows(c.(sequence := c.sequence + 1), RunNoop(c.sequence + 1));
  }

  lemma StillFollows(c: Core)
    requires Showing(c)
    ensures Follows(c, c)
  {
  }

  lemma AnswerFollows(c: Core, at: Point)
    requires Showing(c) && at.Assign?
    ensures Follows(c, Resume(Thresholds, c, at).core)
  {
    QuietFollows(c, SignalOrder(at.order.workflowId, at.pick.Name()));
  }

  lemma NoopFollows(c: Core, left: nat)
    requires Showing(c)
    ensures Follows(c, Resume(Thresholds, c, Noop(left)).core)
  {
    if left == 0 {
      StillFollows(c);
    } else {
      BumpFollows(c);
    }
  }

  lemma ResumeFollows(c: Core, at: Point)
    requires Showing(c) && !at.Wait?
    ensures Follows(c, Resume(Thresholds, c, at).core)
  {
    match at {
      case Noop(left) => NoopFollows(c, left);
      case Sleep => WakeFollows(c);
      case Assign(_, _) => AnswerFollows(c, at);
      case Notify(_, _) => ServedFollows(c);
    }
  }

  lemma StepShows(m: Machine, a: Activation)
    requires Showing(m.core)
    ensures var n := Step(Thresholds, m, a).core;
            && Showing(n)
            && n.degradation == LastDegradation(m.core.degradation, a.signals)
            && Upserts(n.out) + Unpublished(n)
               <= Upserts(m.core.out) + Unpublished(m.core) + Flips(m.core.degradation, a.signals)
  {
    var c0 := m.core.(history := a.history);
    DeliverAppends(c0, a.signals);
    DeliverFlips(c0, a.signals);
    var c := Deliver(c0, a.signals);
    if m.at.Wait? {
      WakeFollows(c);
    } else {
      ResumeFollows(c, m.at);
    }
  }

  lemma {:induction false} RunShows(m: Machine, es: seq<Activation>)
    requires Showing(m.core)
    ensures var n := Run(Thresholds, m, es).core;
            && Showing(n)
            && Upserts(n.out) + Unpublished(n)
               <= Upserts(m.core.out) + Unpublished(m.core) + FlipsOf(m.core.degradation, es)
    decreases |es|
  {
    if es == [] {
    } else {
      StepShows(m, es[0]);
      RunShows(Step(Thresholds, m, es[0]), es[1..]);
    }
  }

  /** Visibility always shows the published status, successive upserts always
      differ, and a region pays for at most one upsert per health change it was
      signalled: repeating a signal costs nothing. */
  lemma VisibleHealthIsCheap(region: string, es: seq<Activation>)
    ensures var c := Reached(region, es).core;
            && Visible(c.out) == c.published
            && Alternating(c.out)
            && Upserts(c.out) + Unpublished(c) <= FlipsOf(NO_DEGRADATION, es)
  {
    RunShows(Begin(Thresholds, FreshState(region)), es);
  }

  /** The same for each run: from the recycling that starts it, a run upserts at
      most once per health change it is signalled. */
  lemma {:induction false} EachRunIsCheap(region: string, before: seq<Activation>, a: Activation, es: seq<Activation>)
    requires var m := Reached(region, before); Ends(m, a) && Recycles(Thresholds, AtCheck(m, a))
    ensures var start := Step(Thresholds, Reached(region, before), a);
            var end := Run(Thresholds, start, es);
            Upserts(end.core.out) + Unpublished(end.core)
            <= Upserts(start.core.out) + FlipsOf(start.core.degradation, es)
  {
    var m := Reached(region, before);
    RunShows(Begin(Thresholds, FreshState(region)), before);
    StepShows(m, a);
    CheckDecides(m, a);
    RunShows(Step(Thresholds, m, a), es);
  }

  /** What visibility shows of a parked region is whether its recycling is
      suspended: there, but only there, the two ways to be degraded are one. */
  lemma ParkedShowsSuspension(region: string, es: seq<Activation>)
    requires Reached(region, es).at.Wait?
    ensures var c := Reached(region, es).core;
            Visible(c.out) == Degraded <==> c.degradation.suspendCan
  {
    NoLostWakeUp(region, es);
    VisibleHealthIsCheap(region, es);
  }

  /** A region that only inflates its history is shown degraded while it is busy,
      though free to recycle. */
  lemma ShownDegradedUnsuspended(region: string)
    ensures exists es :: && Visible(Reached(region, es).core.out) == Degraded
                         && !Reached(region, es).core.degradation.suspendCan
  {
    var d := Degradation(false, true, 40);
    var a := Activation([SetDegradation(d)], false, 10);
    var m := Begin(Thresholds, FreshState(region));
    var es := [a];
    assert a.signals[1..] == [] && es[1..] == [];
    assert Reached(region, es) == Run(Thresholds, Step(Thresholds, m, a), []);
    StepKeepsSetting(m, a, d);
    VisibleHealthIsCheap(region, es);
  }

  lemma StepKeepsSetting(m: Machine, a: Activation, d: Degradation)
    requires m.at.Wait? && m.core.pending == [] && a == Activation([SetDegradation(d)], false, 10)
    requires d.inflateHistory && m.core.processed == 0
    ensures var n := Step(Thresholds, m, a).core; n.degradation == d && n.published == d.Status()
  {
    DeliverAppends(m.core.(history := 10), a.signals);
    assert a.signals[1..] == [];
  }
}
