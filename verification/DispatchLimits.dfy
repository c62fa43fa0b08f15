/** What a region issues, how often and when: recyclings, markers and upserts. */
module DispatchLimits {
  import opened DispatchModel
  import opened DispatchLedger
  import opened DispatchSafety
  import opened DispatchRecovery

  // ----- recycling happens at the limits, and nowhere else

  /** Markers recorded since the run began. */
  function RunMarkers(out: seq<Command>): nat
    decreases |out|
  {
    if out == [] then 0
    else
      match out[|out| - 1]
      case RunNoop(_) => RunMarkers(out[..|out| - 1]) + 1
      case ContinueAsNew(_, _, _, _, _) => 0
      case _ => RunMarkers(out[..|out| - 1])
  }

  /** A command is in order after those before it: a run is closed beyond its
      history limit or with two hundred picks made, and markers are numbered from
      one in each run. */
  predicate InOrder(before: seq<Command>, x: Command) {
    && (x.ContinueAsNew? ==> x.endedAt > 1500 || |Books(before).runPicks| >= 200)
    && (x.RunNoop? ==> x.sequence == RunMarkers(before) + 1)
  }

  predicate AllInOrder(out: seq<Command>)
    decreases |out|
  {
    out == [] || (AllInOrder(out[..|out| - 1]) && InOrder(out[..|out| - 1], out[|out| - 1]))
  }

  lemma InOrderAppends(out: seq<Command>, x: Command)
    ensures AllInOrder(out + [x]) <==> AllInOrder(out) && InOrder(out, x)
    ensures RunMarkers(out + [x]) ==
            if x.RunNoop? then RunMarkers(out) + 1 else if x.ContinueAsNew? then 0 else RunMarkers(out)
  {
    assert (out + [x])[..|out|] == out;
  }

  /** The object's counters are what the commands say. */
  ghost predicate Counted(m: Machine) {
    && AllInOrder(m.core.out)
    && m.core.sequence == RunMarkers(m.core.out)
    && |Books(m.core.out).runPicks| == m.core.processed + |InFlight(m.at)|
  }

  /** The same, between two awaits. */
  ghost predicate CountedCore(c: Core) {
    Counted(Machine(c, Wait))
  }

  lemma QuietEmitCounted(c: Core, x: Command)
    requires CountedCore(c) && (x.UpsertStatus? || x.SignalOrder?)
    ensures CountedCore(Emit(c, x))
  {
    InOrderAppends(c.out, x);
    BooksAppend(c.out, x);
  }

  lemma PublishCounted(c: Core)
    requires CountedCore(c)
    ensures CountedCore(Publish(c))
  {
    QuietEmitCounted(c, UpsertStatus(c.degradation.Status(), |c.pending|));
  }

  lemma BumpCounted(c: Core)
    requires CountedCore(c)
    ensures CountedCore(Bump(c))
  {
    InOrderAppends(c.out, RunNoop(c.sequence + 1));
    BooksAppend(c.out, RunNoop(c.sequence + 1));
  }

  lemma NewRunCounted(c: Core)
    requires CountedCore(c) && Recycles(Thresholds, c)
    ensures CountedCore(NewRun(c))
  {
    InOrderAppends(c.out, Recycled(c));
    BooksAppend(c.out, Recycled(c));
  }

  lemma RestCounted(c: Core)
    requires CountedCore(c)
    ensures Counted(Rest(c))
  {
    if c.degradation.inflateHistory {
      BumpCounted(c);
    } else {
      PublishCounted(c);
    }
  }

  lemma TakeCounted(c: Core)
    requires CountedCore(c) && c.pending != []
    ensures Counted(Take(c))
  {
    var x := AssignCourier(Take(c).at.order, Take(c).at.pick);
    InOrderAppends(c.out, x);
    BooksAppend(c.out, x);
  }

  lemma DrainCounted(c: Core)
    requires CountedCore(c)
    ensures Counted(Drain(Thresholds, c))
  {
    if c.pending != [] {
      TakeCounted(c);
    } else if Recycles(Thresholds, c) {
      NewRunCounted(c);
      RestCounted(NewRun(c));
    } else {
      RestCounted(c);
    }
  }

  lemma AnswerCounted(c: Core, at: Point)
    requires at.Assign? && Counted(Machine(c, at))
    ensures Counted(Resume(Thresholds, c, at))
  {
    InOrderAppends(c.out, SignalOrder(at.order.workflowId, at.pick.Name()));
    BooksAppend(c.out, SignalOrder(at.order.workflowId, at.pick.Name()));
  }

  lemma ResumeCounted(c: Core, at: Point)
    requires !at.Wait? && Counted(Machine(c, at))
    ensures Counted(Resume(Thresholds, c, at))
  {
    if at.Noop? {
      BumpCounted(c);
    } else if at.Sleep? {
      PublishCounted(c);
      DrainCounted(Publish(c));
    } else if at.Assign? {
      AnswerCounted(c, at);
    } else {
      DrainCounted(c.(processed := c.processed + 1));
    }
  }

  lemma StepCounted(m: Machine, a: Activation)
    requires Counted(m)
    ensures Counted(Step(Thresholds, m, a))
  {
    DeliverAppends(m.core.(history := a.history), a.signals);
    var c := Deliver(m.core.(history := a.history), a.signals);
    if m.at.Wait? {
      PublishCounted(c);
      DrainCounted(Publish(c));
    } else {
      ResumeCounted(c, m.at);
    }
  }

  lemma {:induction false} RunCounted(m: Machine, es: seq<Activation>)
    requires Counted(m)
    ensures Counted(Run(Thresholds, m, es))
    decreases |es|
  {
    if es == [] {
    } else {
      StepCounted(m, es[0]);
      RunCounted(Step(Thresholds, m, es[0]), es[1..]);
    }
  }

  lemma ReachedCounted(region: string, es: seq<Activation>)
    ensures Counted(Reached(region, es))
  {
    RunCounted(Begin(Thresholds, FreshState(region)), es);
  }

  lemma {:induction false} InOrderThroughout(out: seq<Command>, i: nat)
    requires AllInOrder(out) && i < |out|
    ensures InOrder(out[..i], out[i])
    decreases |out|
  {
    if i == |out| - 1 {
    } else {
      var init := out[..|out| - 1];
      InOrderThroughout(init, i);
      assert init[..i] == out[..i] && init[i] == out[i];
    }
  }

  /** A region continues as new only beyond 1500 events or with 200 orders assigned
      in the run, and numbers the markers of each run from one. */
  lemma ClosesOnlyAtLimits(region: string, es: seq<Activation>, i: nat)
    requires i < |Reached(region, es).core.out|
    ensures var out := Reached(region, es).core.out;
            && (out[i].ContinueAsNew? ==> out[i].endedAt > 1500 || |Books(out[..i]).runPicks| >= 200)
            && (out[i].RunNoop? ==> out[i].sequence == RunMarkers(out[..i]) + 1)
  {
    ReachedCounted(region, es);
    InOrderThroughout(Reached(region, es).core.out, i);
  }

  lemma RestRecyclings(c: Core)
    ensures Recyclings(Rest(c).core.out) == Recyclings(c.out)
  {
    PublishCounts(c);
    RecyclingsAppend(c.out, RunNoop(c.sequence + 1));
  }

  lemma TakeRecyclings(c: Core)
    requires c.pending != []
    ensures Recyclings(Take(c).core.out) == Recyclings(c.out)
  {
    RecyclingsAppend(c.out, AssignCourier(Take(c).at.order, Take(c).at.pick));
  }

  lemma BusyResume(c: Core, at: Point)
    requires !at.Wait? && (at.Sleep? || at.Notify? ==> c.pending != [])
    ensures Recyclings(Resume(Thresholds, c, at).core.out) == Recyclings(c.out)
  {
    match at {
      case Noop(_) => RecyclingsAppend(c.out, RunNoop(c.sequence + 1));
      case Sleep =>
        PublishCounts(c);
        TakeRecyclings(Publish(c));
      case Assign(order, pick) => RecyclingsAppend(c.out, SignalOrder(order.workflowId, pick.Name()));
      case Notify(_, _) => TakeRecyclings(c.(processed := c.processed + 1));
    }
  }

  /** Short of the check nothing recycles. */
  lemma BusyRecyclings(m: Machine, a: Activation)
    requires !Ends(m, a)
    ensures Recyclings(Step(Thresholds, m, a).core.out) == Recyclings(m.core.out)
  {
    DeliverAppends(m.core.(history := a.history), a.signals);
    var c := Deliver(m.core.(history := a.history), a.signals);
    if m.at.Wait? {
      if c.pending != [] {
        PublishCounts(c);
        TakeRecyclings(Publish(c));
      }
    } else if a.done {
      BusyResume(c, m.at);
    }
  }

  lemma CheckRecyclings(m: Machine, a: Activation)
    requires Ends(m, a)
    ensures Recyclings(Step(Thresholds, m, a).core.out) ==
            Recyclings(m.core.out) + if Recycles(Thresholds, AtCheck(m, a)) then 1 else 0
  {
    DeliverAppends(m.core.(history := a.history), a.signals);
    var c := Deliver(m.core.(history := a.history), a.signals);
    PublishCounts(c);
    CheckDecides(m, a);
    RecyclingsAppend(AtCheck(m, a).out, Recycled(AtCheck(m, a)));
    RestRecyclings(NewRun(AtCheck(m, a)));
    RestRecyclings(AtCheck(m, a));
  }

  lemma CheckSees(m: Machine, a: Activation)
    requires Counted(m) && Ends(m, a)
    ensures var c := AtCheck(m, a);
            && c.processed == |Books(m.core.out).runPicks| && c.history == a.history
            && c.degradation == LastDegradation(m.core.degradation, a.signals)
  {
    DeliverAppends(m.core.(history := a.history), a.signals);
  }

  /** An activation makes a region continue as new if and only if it brings it to
      the check, the mode it then has does not suspend recycling, and the run has
      assigned 200 orders or has more than 1500 events. */
  lemma RecyclesExactlyAtLimits(region: string, es: seq<Activation>, a: Activation)
    ensures var m := Reached(region, es);
            Recyclings(Step(Thresholds, m, a).core.out) == Recyclings(m.core.out) +
              if && Ends(m, a) && !LastDegradation(m.core.degradation, a.signals).suspendCan
                 && (|Books(m.core.out).runPicks| >= 200 || a.history > 1500)
              then 1 else 0
  {
    var m := Reached(region, es);
    ReachedCounted(region, es);
    if Ends(m, a) {
      CheckSees(m, a);
      CheckRecyclings(m, a);
    } else {
      BusyRecyclings(m, a);
    }
  }

  // ----- how many markers an inflating iteration adds

  function Markers(out: seq<Command>): nat
    decreases |out|
  {
    if out == [] then 0 else Markers(out[..|out| - 1]) + if out[|out| - 1].RunNoop? then 1 else 0
  }

  function MarkersLeft(at: Point): nat {
    if at.Noop? then at.left else 0
  }

  lemma MarkersAppend(out: seq<Command>, x: Command)
    ensures Markers(out + [x]) == Markers(out) + if x.RunNoop? then 1 else 0
  {
    assert (out + [x])[..|out|] == out;
  }

  lemma PublishMarks(c: Core)
    ensures Markers(Publish(c).out) == Markers(c.out)
  {
    MarkersAppend(c.out, UpsertStatus(c.degradation.Status(), |c.pending|));
  }

  lemma TakeMarks(c: Core)
    requires c.pending != []
    ensures Markers(Take(c).core.out) == Markers(c.out)
  {
    MarkersAppend(c.out, AssignCourier(Take(c).at.order, Take(c).at.pick));
  }

  lemma ResumeMarks(c: Core, at: Point)
    requires !at.Wait? && (at.Sleep? || at.Notify? ==> c.pending != [])
    ensures var n := Resume(Thresholds, c, at);
            Markers(n.core.out) + MarkersLeft(n.at) == Markers(c.out) + MarkersLeft(at)
  {
    match at {
      case Noop(_) => MarkersAppend(c.out, RunNoop(c.sequence + 1));
      case Sleep =>
        PublishMarks(c);
        TakeMarks(Publish(c));
      case Assign(order, pick) => MarkersAppend(c.out, SignalOrder(order.workflowId, pick.Name()));
      case Notify(_, _) => TakeMarks(c.(processed := c.processed + 1));
    }
  }

  lemma StepMarks(m: Machine, a: Activation)
    requires !Ends(m, a)
    ensures var n := Step(Thresholds, m, a);
            Markers(n.core.out) + MarkersLeft(n.at) == Markers(m.core.out) + MarkersLeft(m.at)
  {
    DeliverAppends(m.core.(history := a.history), a.signals);
    var c := Deliver(m.core.(history := a.history), a.signals);
    if m.at.Wait? {
      if c.pending != [] {
        PublishMarks(c);
        TakeMarks(Publish(c));
      }
    } else if a.done {
      ResumeMarks(c, m.at);
    }
  }

  lemma {:induction false} IterationMarks(m: Machine, es: seq<Activation>)
    requires SameIteration(m, es)
    ensures var n := Run(Thresholds, m, es);
            Markers(n.core.out) + MarkersLeft(n.at) == Markers(m.core.out) + MarkersLeft(m.at)
    decreases |es|
  {
    if es == [] {
    } else {
      StepMarks(m, es[0]);
      IterationMarks(Step(Thresholds, m, es[0]), es[1..]);
    }
  }

  /** From the top of the loop to the check, an inflating iteration adds as many
      markers as the rate says, 40 if the rate is zero and one if it is negative;
      any other adds none. */
  lemma IterationAddsItsRate(c: Core, es: seq<Activation>, a: Activation)
    requires c.pending == [] && c.published == c.degradation.Status() && !Recycles(Thresholds, c)
    requires var m := LoopTop(Thresholds, c); SameIteration(m, es) && Ends(Run(Thresholds, m, es), a)
    ensures var d := c.degradation;
            Markers(Run(Thresholds, LoopTop(Thresholds, c), es).core.out) == Markers(c.out) +
              if !d.inflateHistory then 0
              else if d.inflateRate == 0 then 40
              else if d.inflateRate < 1 then 1 else d.inflateRate
  {
    var m := LoopTop(Thresholds, c);
    RestIsLoopTop(c);
    IterationMarks(m, es);
    MarkersAppend(c.out, RunNoop(c.sequence + 1));
  }

  // ----- what an upsert shows

  /** From `k` on, every upsert shows this status and this backlog. */
  predicate Shows(out: seq<Command>, k: nat, status: Status, backlog: int) {
    forall i :: k <= i < |out| && out[i].UpsertStatus? ==> out[i].status == status && out[i].pendingCount == backlog
  }

  lemma RestShows(c: Core, k: nat)
    requires k <= |c.out| && c.pending == [] && Shows(c.out, k, c.degradation.Status(), 0)
    ensures Shows(Rest(c).core.out, k, c.degradation.Status(), 0)
  {
  }

  lemma PublishShows(c: Core, k: nat)
    requires k == |c.out|
    ensures Shows(Publish(c).out, k, c.degradation.Status(), |c.pending|)
  {
  }

  lemma DrainShows(c: Core, k: nat)
    requires k <= |c.out| && Shows(c.out, k, c.degradation.Status(), |c.pending|)
    ensures Shows(Drain(Thresholds, c).core.out, k, c.degradation.Status(), |c.pending|)
  {
    if c.pending != [] {
    } else if Recycles(Thresholds, c) {
      RestShows(NewRun(c), k);
    } else {
      RestShows(c, k);
    }
  }

  lemma ResumeShows(c: Core, at: Point)
    requires !at.Wait?
    ensures Shows(Resume(Thresholds, c, at).core.out, |c.out|, c.degradation.Status(), |c.pending|)
  {
    match at {
      case Sleep =>
        PublishShows(c, |c.out|);
        DrainShows(Publish(c), |c.out|);
      case Notify(_, _) => DrainShows(c.(processed := c.processed + 1), |c.out|);
      case _ =>
    }
  }

  lemma StepUpserts(m: Machine, a: Activation)
    ensures Shows(Step(Thresholds, m, a).core.out, |m.core.out|,
                  LastDegradation(m.core.degradation, a.signals).Status(),
                  |m.core.pending| + |OrdersIn(a.signals)|)
  {
    DeliverAppends(m.core.(history := a.history), a.signals);
    var c := Deliver(m.core.(history := a.history), a.signals);
    if m.at.Wait? {
      PublishShows(c, |c.out|);
      DrainShows(Publish(c), |c.out|);
    } else {
      ResumeShows(c, m.at);
    }
  }

  /** Whatever an activation upserts is the health of that moment, and as backlog
      the orders received so far less those assigned before. */
  lemma UpsertsShowBacklog(region: string, es: seq<Activation>, a: Activation)
    ensures var m := Reached(region, es);
            Shows(Step(Thresholds, m, a).core.out, |m.core.out|,
                  LastDegradation(m.core.degradation, a.signals).Status(),
                  |OrdersOf(es)| + |OrdersIn(a.signals)| - |Books(m.core.out).taken|)
  {
    ReachedBalanced(region, es);
    StepUpserts(Reached(region, es), a);
  }

  /** A health change is published as soon as the wait or the timer is over, before
      any order is served: after such an activation the published status is the
      health signalled last. */
  lemma FlipsAreNoticed(region: string, es: seq<Activation>, a: Activation)
    requires var m := Reached(region, es); m.at.Wait? || (m.at.Sleep? && a.done)
    ensures var m := Reached(region, es);
            var d := LastDegradation(m.core.degradation, a.signals);
            Step(Thresholds, m, a).core.published == (if d.suspendCan || d.inflateHistory then Degraded else Healthy)
  {
    var m := Reached(region, es);
    DeliverAppends(m.core.(history := a.history), a.signals);
  }
}
