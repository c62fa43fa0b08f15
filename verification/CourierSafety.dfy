/** A courier's shift over every schedule and any number of runs. */
module CourierSafety {
  import opened Names
  import opened CourierModel

  // ----- reading signals and commands

  function AssignmentsIn(batch: seq<Signal>): seq<string>
    decreases |batch|
  {
    if batch == [] then []
    else (if batch[0].Assignment? then [batch[0].orderId] else []) + AssignmentsIn(batch[1..])
  }

  function PingsIn(batch: seq<Signal>): nat
    decreases |batch|
  {
    if batch == [] then 0 else (if batch[0].LocationPing? then 1 else 0) + PingsIn(batch[1..])
  }

  function AssignmentsOf(es: seq<Activation>): seq<string>
    decreases |es|
  {
    if es == [] then [] else AssignmentsIn(es[0].signals) + AssignmentsOf(es[1..])
  }

  function PingsOf(es: seq<Activation>): nat
    decreases |es|
  {
    if es == [] then 0 else PingsIn(es[0].signals) + PingsOf(es[1..])
  }

  datatype Ledger = Ledger(accepted: seq<string>, reports: seq<Command>)

  function Post(l: Ledger, x: Command): Ledger {
    match x
    case AcceptAssignment(orderId) => l.(accepted := l.accepted + [orderId])
    case ReportAvailable(_, _, _) => l.(reports := l.reports + [x])
    case _ => l
  }

  function Books(out: seq<Command>): Ledger
    decreases |out|
  {
    if out == [] then Ledger([], []) else Post(Books(out[..|out| - 1]), out[|out| - 1])
  }

  lemma BooksAppend(out: seq<Command>, x: Command)
    ensures Books(out + [x]) == Post(Books(out), x)
  {
    assert (out + [x])[..|out|] == out;
  }

  lemma Assoc<T>(a: seq<T>, b: seq<T>, c: seq<T>)
    ensures (a + b) + c == a + (b + c)
  {
  }

  lemma {:induction false} DeliverAppends(c: Core, batch: seq<Signal>)
    ensures Deliver(c, batch) == c.(
      assignments := c.assignments + AssignmentsIn(batch),
      pings := c.pings + PingsIn(batch),
      end := c.end || EndShift in batch)
    decreases |batch|
  {
    if batch == [] {
      assert c.assignments + [] == c.assignments;
    } else {
      var s, rest := batch[0], batch[1..];
      DeliverAppends(Handle(c, s), rest);
      Assoc(c.assignments, if s.Assignment? then [s.orderId] else [], AssignmentsIn(rest));
      assert c.assignments + [] == c.assignments;
      assert EndShift in batch <==> s == EndShift || EndShift in rest;
    }
  }

  // ----- conservation

  function Accepting(at: Point): nat {
    if at.Accept? then 1 else 0
  }

  ghost predicate Balanced(m: Machine, given: seq<string>, pings: nat) {
    var c, l := m.core, Books(m.core.out);
    && l.accepted + c.assignments == given
    && c.count + Accepting(m.at) == |l.accepted|
    && |l.reports| == c.count
    && c.pings == pings
    && (m.at.Wait? ==> c.assignments == [] && !c.end)
    && (m.at.Accept? || m.at.Report? ==> l.accepted != [] && l.accepted[|l.accepted| - 1] == m.at.orderId)
  }

  /** Between two awaits. */
  ghost predicate Settled(c: Core, given: seq<string>, pings: nat) {
    && Books(c.out).accepted + c.assignments == given
    && c.count == |Books(c.out).accepted|
    && |Books(c.out).reports| == c.count
    && c.pings == pings
  }

  lemma FinishBalanced(c: Core, given: seq<string>, pings: nat)
    requires Settled(c, given, pings)
    ensures Balanced(Finish(c), given, pings)
  {
    BooksAppend(c.out, EndWorkflow(c.courierId, c.count));
  }

  lemma TakeBalanced(c: Core, given: seq<string>, pings: nat)
    requires Settled(c, given, pings) && c.assignments != []
    ensures Balanced(Take(c), given, pings)
  {
    var l := Books(c.out);
    BooksAppend(c.out, AcceptAssignment(c.assignments[0]));
    assert l.accepted + [c.assignments[0]] + c.assignments[1..] == l.accepted + c.assignments;
  }

  lemma DrainBalanced(c: Core, given: seq<string>, pings: nat)
    requires Settled(c, given, pings)
    ensures Balanced(Drain(c), given, pings) && Balanced(Finish(c), given, pings)
  {
    FinishBalanced(c, given, pings);
    if c.assignments != [] {
      TakeBalanced(c, given, pings);
    } else {
      BooksAppend(c.out, ContinueAsNew(Carry(c)));
    }
  }

  lemma StepBalanced(m: Machine, a: Activation, given: seq<string>, pings: nat)
    requires Balanced(m, given, pings) && !m.at.Ended?
    ensures Balanced(Step(m, a), given + AssignmentsIn(a.signals), pings + PingsIn(a.signals))
  {
    var c0 := m.core.(history := a.history);
    DeliverAppends(c0, a.signals);
    var c := Deliver(c0, a.signals);
    var given', pings' := given + AssignmentsIn(a.signals), pings + PingsIn(a.signals);
    Assoc(Books(c.out).accepted, m.core.assignments, AssignmentsIn(a.signals));
    match m.at {
      case Wait => DrainBalanced(c, given', pings');
      case Accept(_) => BooksAppend(c.out, ReportAvailable(DispatchId(c.region), c.courierId, c.region));
      case Report(_) =>
        if a.done {
          DrainBalanced(c, given', pings');
        }
    }
  }

  lemma {:induction false} RunBalanced(m: Machine, es: seq<Activation>, given: seq<string>, pings: nat)
    requires Balanced(m, given, pings) && !Run(m, es).at.Ended?
    ensures Balanced(Run(m, es), given + AssignmentsOf(es), pings + PingsOf(es))
    decreases |es|
  {
    if es == [] {
      assert given + [] == given;
    } else {
      var n := Step(m, es[0]);
      if n.at.Ended? {
        EndedStays(n, es[1..]);
        assert false;
      } else if m.at.Ended? {
        assert false;
      }
      StepBalanced(m, es[0], given, pings);
      RunBalanced(n, es[1..], given + AssignmentsIn(es[0].signals), pings + PingsIn(es[0].signals));
      Assoc(given, AssignmentsIn(es[0].signals), AssignmentsOf(es[1..]));
    }
  }

  /** Until the shift ends, over any number of runs: assignments received are
      those accepted, in order, then those queued; all but the one in hand are
      counted and reported, once each; every ping is counted. Not carrying the
      queue across continue-as-new loses nothing. */
  lemma ShiftConserves(courierId: string, region: string, vehicleType: string, es: seq<Activation>)
    requires !Reached(courierId, region, vehicleType, es).at.Ended?
    ensures var m := Reached(courierId, region, vehicleType, es);
            var l := Books(m.core.out);
            && AssignmentsOf(es) == l.accepted + m.core.assignments
            && m.core.count + Accepting(m.at) == |l.accepted|
            && |l.reports| == m.core.count
            && m.core.pings == PingsOf(es)
  {
    var m := Begin(FreshState(courierId, region, vehicleType));
    RunBalanced(m, es, [], 0);
    assert [] + AssignmentsOf(es) == AssignmentsOf(es);
  }

  /** The activation that ends a shift leaves the books balanced too: the result
      counts every assignment accepted, and the rest were still queued. */
  lemma EndedShiftCountsItsWork(courierId: string, region: string, vehicleType: string,
      es: seq<Activation>, a: Activation)
    requires !Reached(courierId, region, vehicleType, es).at.Ended?
    requires Step(Reached(courierId, region, vehicleType, es), a).at.Ended?
    ensures var n := Step(Reached(courierId, region, vehicleType, es), a);
            var l := Books(n.core.out);
            && AssignmentsOf(es) + AssignmentsIn(a.signals) == l.accepted + n.core.assignments
            && n.core.out[|n.core.out| - 1] == EndWorkflow(courierId, |l.accepted|)
  {
    var start := Begin(FreshState(courierId, region, vehicleType));
    var m := Reached(courierId, region, vehicleType, es);
    RunBalanced(start, es, [], 0);
    assert [] + AssignmentsOf(es) == AssignmentsOf(es);
    StepBalanced(m, a, AssignmentsOf(es), PingsOf(es));
    RunIdentity(start, es);
    StepSame(m, a);
    DeliverAppends(m.core.(history := a.history), a.signals);
  }

  // ----- when a shift continues as new

  function Recyclings(out: seq<Command>): nat
    decreases |out|
  {
    if out == [] then 0 else Recyclings(out[..|out| - 1]) + if out[|out| - 1].ContinueAsNew? then 1 else 0
  }

  lemma RecyclingsAppend(out: seq<Command>, x: Command)
    ensures Recyclings(out + [x]) == Recyclings(out) + if x.ContinueAsNew? then 1 else 0
  {
    assert (out + [x])[..|out|] == out;
  }

  /** An activation leaves the courier with nothing to do at the end of its loop. */
  predicate Idles(m: Machine, a: Activation) {
    && m.core.assignments == [] && AssignmentsIn(a.signals) == []
    && ((m.at.Wait? && EndShift !in a.signals) || (m.at.Report? && a.done))
  }

  /** A shift continues as new if and only if it has nothing left to accept and more
      than 1500 events; told to end while waiting, it ends instead. */
  lemma ShiftRecyclesExactly(courierId: string, region: string, vehicleType: string, es: seq<Activation>, a: Activation)
    requires !Reached(courierId, region, vehicleType, es).at.Ended?
    ensures var m := Reached(courierId, region, vehicleType, es);
            Recyclings(Step(m, a).core.out) ==
            Recyclings(m.core.out) + if Idles(m, a) && a.history > 1500 then 1 else 0
  {
    var m := Reached(courierId, region, vehicleType, es);
    RunBalanced(Begin(FreshState(courierId, region, vehicleType)), es, [], 0);
    StepRecyclings(m, a);
  }

  lemma StepRecyclings(m: Machine, a: Activation)
    requires !m.at.Ended? && (m.at.Wait? ==> m.core.assignments == [] && !m.core.end)
    ensures Recyclings(Step(m, a).core.out) ==
            Recyclings(m.core.out) + if Idles(m, a) && a.history > 1500 then 1 else 0
  {
    DeliverAppends(m.core.(history := a.history), a.signals);
    var c := Deliver(m.core.(history := a.history), a.signals);
    if m.at.Accept? {
      RecyclingsAppend(c.out, ReportAvailable(DispatchId(c.region), c.courierId, c.region));
    } else {
      RecyclingsAppend(c.out, EndWorkflow(c.courierId, c.count));
      DrainRecyclings(c);
    }
  }

  lemma DrainRecyclings(c: Core)
    ensures Recyclings(Drain(c).core.out) ==
            Recyclings(c.out) + if c.assignments == [] && c.history > 1500 then 1 else 0
  {
    if c.assignments != [] {
      RecyclingsAppend(c.out, AcceptAssignment(c.assignments[0]));
    } else {
      RecyclingsAppend(c.out, ContinueAsNew(Carry(c)));
      RecyclingsAppend(c.out, EndWorkflow(c.courierId, c.count));
    }
  }

  lemma {:induction false} RunParked(m: Machine, es: seq<Activation>)
    requires m.at.Wait? ==> m.core.history <= 1500
    ensures Run(m, es).at.Wait? ==> Run(m, es).core.history <= 1500
    decreases |es|
  {
    if es == [] {
    } else {
      DeliverAppends(m.core.(history := es[0].history), es[0].signals);
      RunParked(Step(m, es[0]), es[1..]);
    }
  }

  /** No wake-up is lost: a waiting courier has nothing queued, no end pending, and
      at most 1500 events. */
  lemma WaitingShiftHasNothingToDo(courierId: string, region: string, vehicleType: string, es: seq<Activation>)
    requires Reached(courierId, region, vehicleType, es).at.Wait?
    ensures var c := Reached(courierId, region, vehicleType, es).core;
            c.assignments == [] && !c.end && c.history <= 1500
  {
    var m := Begin(FreshState(courierId, region, vehicleType));
    RunBalanced(m, es, [], 0);
    RunParked(m, es);
  }

  // ----- who reports where

  /** Reports are all alike: this courier, to its region's dispatch. */
  ghost predicate AllReport(reports: seq<Command>, courierId: string, region: string) {
    forall i :: 0 <= i < |reports| ==> reports[i] == ReportAvailable(DispatchId(region), courierId, region)
  }

  /** The courier is who it was, and any new reports are its own. */
  ghost predicate SameCourier(c: Core, n: Core) {
    && n.courierId == c.courierId && n.region == c.region && n.vehicleType == c.vehicleType
    && (AllReport(Books(c.out).reports, c.courierId, c.region) ==>
          AllReport(Books(n.out).reports, c.courierId, c.region))
  }

  lemma QuietSame(c: Core, x: Command)
    requires !x.ReportAvailable?
    ensures SameCourier(c, Emit(c, x))
  {
    BooksAppend(c.out, x);
  }

  lemma DrainSame(c: Core)
    ensures SameCourier(c, Drain(c).core) && SameCourier(c, Finish(c).core)
  {
    QuietSame(c, EndWorkflow(c.courierId, c.count));
    if c.assignments != [] {
      QuietSame(c, AcceptAssignment(c.assignments[0]));
    } else {
      QuietSame(c, ContinueAsNew(Carry(c)));
    }
  }

  lemma StepSame(m: Machine, a: Activation)
    ensures SameCourier(m.core, Step(m, a).core)
  {
    var c0 := m.core.(history := a.history);
    DeliverAppends(c0, a.signals);
    var c := Deliver(c0, a.signals);
    if m.at.Accept? {
      BooksAppend(c.out, ReportAvailable(DispatchId(c.region), c.courierId, c.region));
    } else {
      DrainSame(c);
    }
  }

  lemma {:induction false} RunIdentity(m: Machine, es: seq<Activation>)
    requires AllReport(Books(m.core.out).reports, m.core.courierId, m.core.region)
    ensures AllReport(Books(Run(m, es).core.out).reports, m.core.courierId, m.core.region)
    ensures Run(m, es).core.courierId == m.core.courierId && Run(m, es).core.region == m.core.region
    ensures Run(m, es).core.vehicleType == m.core.vehicleType
    decreases |es|
  {
    if es == [] {
    } else {
      StepSame(m, es[0]);
      RunIdentity(Step(m, es[0]), es[1..]);
    }
  }

  /** A courier keeps its identity over all its runs, only ever reports itself,
      and only to its own region. */
  lemma ReportsGoHome(courierId: string, region: string, vehicleType: string, es: seq<Activation>)
    ensures var c := Reached(courierId, region, vehicleType, es).core;
            c.courierId == courierId && c.region == region && c.vehicleType == vehicleType
    ensures AllReport(Books(Reached(courierId, region, vehicleType, es).core.out).reports, courierId, region)
  {
    RunIdentity(Begin(FreshState(courierId, region, vehicleType)), es);
  }

  // ----- the end of the shift

  predicate Draining(m: Machine) {
    m.at.Accept? || m.at.Report?
  }

  predicate NoEnd(es: seq<Activation>) {
    forall i :: 0 <= i < |es| ==> EndShift !in es[i].signals
  }

  /** The history length at which the inner loop of the current run is left. */
  function LeavesAt(m: Machine, es: seq<Activation>): seq<nat>
    decreases |es|
  {
    if es == [] then []
    else if !Draining(Step(m, es[0])) then [es[0].history]
    else LeavesAt(Step(m, es[0]), es[1..])
  }

  /** An end of shift that finds the courier waiting ends it there and then. */
  lemma EndShiftAtWait(m: Machine, a: Activation)
    requires m.at.Wait? && EndShift in a.signals
    ensures Step(m, a).at.Ended?
  {
    DeliverAppends(m.core.(history := a.history), a.signals);
  }

  lemma {:induction false} NeverEnds(m: Machine, es: seq<Activation>)
    requires !m.at.Ended? && !m.core.end && NoEnd(es)
    ensures !Run(m, es).at.Ended? && !Run(m, es).core.end
    decreases |es|
  {
    if es == [] {
    } else {
      DeliverAppends(m.core.(history := es[0].history), es[0].signals);
      NeverEnds(Step(m, es[0]), es[1..]);
    }
  }

  lemma DrainingStep(m: Machine, a: Activation)
    requires Draining(m) && (m.core.end || EndShift in a.signals)
    ensures var n := Step(m, a);
            if Draining(n) then n.core.end
            else if a.history <= 1500 then n.at.Ended?
            else n.at.Wait? && !n.core.end
  {
    DeliverAppends(m.core.(history := a.history), a.signals);
  }

  /** With an end of shift pending, or in the very next activation, what becomes of
      it is decided where the inner loop is left. */
  predicate HonouredWithinHistory(m: Machine, es: seq<Activation>) {
    && (LeavesAt(m, es) == [] ==> Draining(Run(m, es)) && Run(m, es).core.end)
    && (LeavesAt(m, es) != [] ==> (Run(m, es).at.Ended? <==> LeavesAt(m, es)[0] <= 1500))
  }

  lemma {:induction false} PendingEndDecided(m: Machine, es: seq<Activation>)
    requires Draining(m) && m.core.end && NoEnd(es)
    ensures HonouredWithinHistory(m, es)
    decreases |es|, 1
  {
    if es == [] {
    } else {
      EndDecided(m, es);
    }
  }

  lemma {:induction false} EndDecided(m: Machine, es: seq<Activation>)
    requires Draining(m) && es != [] && (m.core.end || EndShift in es[0].signals) && NoEnd(es[1..])
    ensures HonouredWithinHistory(m, es)
    decreases |es|, 0
  {
    var n := Step(m, es[0]);
    DrainingStep(m, es[0]);
    if Draining(n) {
      PendingEndDecided(n, es[1..]);
    } else if n.at.Ended? {
      EndedStays(n, es[1..]);
    } else {
      NeverEnds(n, es[1..]);
    }
  }

  /** An end of shift that finds the courier busy, be it with the activation that
      completes its last report, is honoured exactly when the inner loop is left
      with the history within its limit. Left beyond it, the run continues as new
      without looking at the flag, the flag is not carried, and the shift goes on
      until another end of shift comes. */
  lemma EndShiftHonouredExactlyWithinHistory(m: Machine, es: seq<Activation>)
    requires Draining(m) && es != [] && EndShift in es[0].signals && NoEnd(es[1..])
    ensures LeavesAt(m, es) == [] ==> Draining(Run(m, es)) && Run(m, es).core.end
    ensures LeavesAt(m, es) != [] ==> (Run(m, es).at.Ended? <==> LeavesAt(m, es)[0] <= 1500)
  {
    EndDecided(m, es);
  }

  /** A courier busy with one assignment is told to end, and its inner loop is
      left with the history just over the limit. */
  function LosingSchedule(orderId: string): seq<Activation> {
    [Activation([Assignment(orderId)], false, 10),
     Activation([EndShift], true, 1500),
     Activation([], true, 1501)]
  }

  /** Any courier can lose its end of shift: it is signalled, the next run has
      started without it, and no schedule without another one ends the shift. */
  lemma EndShiftCanBeLost(courierId: string, region: string, vehicleType: string, orderId: string, es: seq<Activation>)
    requires NoEnd(es)
    ensures EndShift in LosingSchedule(orderId)[1].signals
    ensures var m := Reached(courierId, region, vehicleType, LosingSchedule(orderId));
            m.at.Wait? && !m.core.end && m.core.count == 1 && !Run(m, es).at.Ended?
  {
    var e := LosingSchedule(orderId);
    var m := Begin(FreshState(courierId, region, vehicleType));
    var m1 := Step(m, e[0]);
    DeliverAppends(m.core.(history := e[0].history), e[0].signals);
    assert m1.at == Accept(orderId) && m1.core.assignments == [];
    var m2 := Step(m1, e[1]);
    DeliverAppends(m1.core.(history := e[1].history), e[1].signals);
    assert m2.at == Report(orderId) && m2.core.end;
    var m3 := Step(m2, e[2]);
    assert e[1..][0] == e[1] && e[1..][1..] == e[2..] && e[2..][0] == e[2] && e[2..][1..] == [];
    assert Run(m, e) == Run(m1, e[1..]) == Run(m2, e[2..]) == Run(m3, []);
    NeverEnds(m3, es);
  }

  function Work(m: Machine): nat {
    2 * |m.core.assignments| + if m.at.Accept? then 2 else if m.at.Report? then 1 else 0
  }

  function Completions(es: seq<Activation>): nat
    decreases |es|
  {
    if es == [] then 0 else (if es[0].done then 1 else 0) + Completions(es[1..])
  }

  /** Without new assignments the inner loop is left after `Work` completions. */
  lemma {:induction false} DrainIsFinite(m: Machine, es: seq<Activation>)
    requires Draining(m) && AssignmentsOf(es) == [] && Completions(es) >= Work(m)
    ensures LeavesAt(m, es) != []
    decreases |es|
  {
    DeliverAppends(m.core.(history := es[0].history), es[0].signals);
    var n := Step(m, es[0]);
    assert AssignmentsIn(es[0].signals) == [];
    if Draining(n) {
      DrainIsFinite(n, es[1..]);
    }
  }
}
