/** What every schedule of answers, timers and failures leaves true of an order. */
module OrderSafety {
  import opened Names
  import opened Wrappers
  import opened OrderModel

  // ----- reading the commands

  /** What the commands issued so far add up to: stages shown, couriers asked
      for, settlements asked for, and the couriers named at pickup and there. */
  datatype Ledger = Ledger(
    stages: seq<Stage>, requests: seq<Command>, settlements: seq<Command>, carriers: seq<string>, payees: seq<string>)

  function Post(l: Ledger, x: Command): Ledger {
    match x
    case UpsertStage(stage, _, carrier) =>
      l.(stages := l.stages + [stage],
         carriers := l.carriers + if carrier.Some? then [carrier.value] else [])
    case RequestDispatch(_, _, _, _) => l.(requests := l.requests + [x])
    case StartSettlement(_, _, _, _, courier) =>
      l.(settlements := l.settlements + [x], payees := l.payees + [courier])
  }

  function Books(out: seq<Command>): Ledger
    decreases |out|
  {
    if out == [] then Ledger([], [], [], [], []) else Post(Books(out[..|out| - 1]), out[|out| - 1])
  }

  lemma BooksAppend(out: seq<Command>, x: Command)
    ensures Books(out + [x]) == Post(Books(out), x)
  {
    assert (out + [x])[..|out|] == out;
  }

  function Position(at: Point): nat {
    match at
    case ForcedSleep => 0
    case Validate => 1
    case Authorize => 2
    case Send => 3
    case AcceptSleep => 4
    case Poll => 5
    case PrepSleep => 6
    case Ready => 7
    case AwaitCourier => 8
    case PickUp => 9
    case Transit => 10
    case DeliverOrder => 11
    case Settle => 12
  }

  // ----- stages and requests

  function StagesDue(at: Point): seq<Stage> {
    if Position(at) < 6 then []
    else if Position(at) < 8 then [Preparing]
    else if Position(at) < 10 then [Preparing, AwaitingCourier]
    else [Preparing, AwaitingCourier, InTransit]
  }

  function RequestOf(inp: Input): Command {
    RequestDispatch(DispatchId(inp.region), inp.orderId, OrderWorkflowId(inp.orderId), inp.region)
  }

  function SettlementOf(inp: Input, courier: string): Command {
    StartSettlement(SettlementId(inp.orderId), inp.orderId, inp.region, inp.restaurantId, courier)
  }

  /** One settlement, under the order's own names, once delivery is reached. */
  ghost predicate SettlementsKept(c: Core, at: Point, l: Ledger) {
    && (Position(at) < 12 ==> l.settlements == [] && l.payees == [])
    && (Position(at) >= 12 ==> |l.payees| == 1 && l.settlements == [SettlementOf(c.inp, l.payees[0])])
  }

  /** One upsert per stage reached, if tracked; one request for a courier. */
  ghost predicate UpsertsKept(c: Core, at: Point, l: Ledger) {
    && c.trackStages == c.inp.trackStages
    && l.stages == (if c.trackStages then StagesDue(at) else [])
    && l.requests == (if Position(at) < 7 then [] else [RequestOf(c.inp)])
  }

  ghost predicate StagesKept(c: Core, at: Point) {
    SettlementsKept(c, at, Books(c.out)) && UpsertsKept(c, at, Books(c.out))
  }

  /** The command, if any, with which the saga leaves an await. */
  function Parting(c: Core, at: Point): seq<Command> {
    match at
    case Poll => if c.trackStages then [UpsertStage(Preparing, Some(c.now + PROMISE), None)] else []
    case PrepSleep => [RequestOf(c.inp)]
    case Ready => if c.trackStages then [UpsertStage(AwaitingCourier, None, None)] else []
    case PickUp => if c.trackStages then [UpsertStage(InTransit, None, Some(OrUnknown(c.courier)))] else []
    case DeliverOrder =>
      [SettlementOf(c.inp, OrUnknown(c.courier))]
    case _ => []
  }

  lemma ResumeParts(c: Core, at: Point)
    ensures var n := Resume(c, at).core;
            && n.out == c.out + Parting(c, at)
            && n.inp == c.inp && n.trackStages == c.trackStages && n.heard == c.heard
            && n.heardAtPickup == (if at.PickUp? then |c.heard| else c.heardAtPickup)
            && n.heardAtSettlement == (if at.DeliverOrder? then |c.heard| else c.heardAtSettlement)
            && (if at.AwaitCourier? && c.courier.None?
                then n.courier == Some(FallbackCourier(c.inp.orderId)) && n.fellBack
                else n.courier == c.courier && n.fellBack == c.fellBack)
  {
  }

  /** Where the saga goes: one place on, except that an order that already has
      its courier does not wait for one. */
  lemma ResumeMoves(c: Core, at: Point)
    ensures var n := Resume(c, at);
            && Position(n.at) == (if at.Settle? then 12
                                  else if at.Ready? && c.courier.Some? then 9
                                  else Position(at) + 1)
            && n.status == (if at.Settle? then Delivered else Running)
  {
  }

  function Posted(l: Ledger, parting: seq<Command>): Ledger {
    if parting == [] then l else Post(l, parting[0])
  }

  lemma PartingBooks(c: Core, at: Point)
    ensures Books(c.out + Parting(c, at)) == Posted(Books(c.out), Parting(c, at))
  {
    if Parting(c, at) == [] {
      assert c.out + [] == c.out;
    } else {
      BooksAppend(c.out, Parting(c, at)[0]);
    }
  }

  lemma ResumeStages(c: Core, at: Point)
    requires StagesKept(c, at)
    ensures StagesKept(Resume(c, at).core, Resume(c, at).at)
  {
    var n := Resume(c, at);
    ResumeParts(c, at);
    ResumeMoves(c, at);
    PartingBooks(c, at);
    SettlementsAdvance(c, at, Books(c.out), n.core, n.at);
    UpsertsAdvance(c, at, Books(c.out), n.core, n.at);
  }

  lemma SettlementsAdvance(c: Core, at: Point, l: Ledger, n: Core, to: Point)
    requires SettlementsKept(c, at, l) && n.inp == c.inp
    requires Position(to) == (if at.Settle? then 12 else if at.Ready? && c.courier.Some? then 9 else Position(at) + 1)
    ensures SettlementsKept(n, to, Posted(l, Parting(c, at)))
  {
  }

  lemma UpsertsAdvance(c: Core, at: Point, l: Ledger, n: Core, to: Point)
    requires UpsertsKept(c, at, l) && n.inp == c.inp && n.trackStages == c.trackStages
    requires Position(to) == (if at.Settle? then 12 else if at.Ready? && c.courier.Some? then 9 else Position(at) + 1)
    ensures UpsertsKept(n, to, Posted(l, Parting(c, at)))
  {
  }

  // ----- couriers

  /** The courier after the first `n` answers: the last of them, else the
      fallback, else nobody. */
  function Effective(heard: seq<string>, n: nat, fallback: Option<string>): Option<string>
    requires n <= |heard|
  {
    if n > 0 then Some(heard[n - 1]) else fallback
  }

  function Fallback(c: Core): Option<string> {
    if c.fellBack then Some(FallbackCourier(c.inp.orderId)) else None
  }

  /** Both places that name the courier name the effective one of that moment. */
  ghost predicate Named(c: Core, at: Point, carriers: seq<string>, payees: seq<string>) {
    && c.heardAtPickup <= |c.heard| && c.heardAtSettlement <= |c.heard|
    && c.courier == Effective(c.heard, |c.heard|, Fallback(c))
    && (c.fellBack ==> Position(at) >= 9)
    && (Position(at) >= 9 ==> c.courier.Some?)
    && carriers == (if c.trackStages && Position(at) >= 10
                    then [OrUnknown(Effective(c.heard, c.heardAtPickup, Fallback(c)))] else [])
    && payees == (if Position(at) < 12 then []
                  else [OrUnknown(Effective(c.heard, c.heardAtSettlement, Fallback(c)))])
    && (Position(at) >= 10 ==> c.fellBack || c.heardAtPickup > 0)
    && (Position(at) >= 12 ==> c.heardAtPickup <= c.heardAtSettlement)
  }

  ghost predicate CouriersKept(c: Core, at: Point) {
    Named(c, at, Books(c.out).carriers, Books(c.out).payees)
  }

  lemma HearEffective(heard: seq<string>, answers: seq<string>, n: nat, fallback: Option<string>)
    requires n <= |heard|
    ensures Effective(heard + answers, n, fallback) == Effective(heard, n, fallback)
  {
    if n > 0 {
      assert (heard + answers)[n - 1] == heard[n - 1];
    }
  }

  lemma HearCouriers(c: Core, at: Point, answers: seq<string>)
    requires CouriersKept(c, at)
    ensures CouriersKept(Hear(c, answers), at)
  {
    if answers != [] {
      HearEffective(c.heard, answers, c.heardAtPickup, Fallback(c));
      HearEffective(c.heard, answers, c.heardAtSettlement, Fallback(c));
      assert (c.heard + answers)[|c.heard + answers| - 1] == answers[|answers| - 1];
    }
  }

  /** Leaving an await that names no courier and finds none. */
  lemma CouriersPass(c: Core, at: Point, n: Core, to: Point, carriers: seq<string>, payees: seq<string>)
    requires Named(c, at, carriers, payees) && !at.PickUp? && !at.DeliverOrder? && !at.AwaitCourier?
    requires n == c.(since := n.since, out := n.out)
    requires Position(to) == (if at.Settle? then 12 else if at.Ready? && c.courier.Some? then 9 else Position(at) + 1)
    ensures Named(n, to, carriers, payees)
  {
  }

  lemma CouriersFound(c: Core, n: Core, carriers: seq<string>, payees: seq<string>)
    requires Named(c, AwaitCourier, carriers, payees)
    requires var found := if c.courier.Some? then c
                          else c.(courier := Some(FallbackCourier(c.inp.orderId)), fellBack := true);
             n == found.(since := n.since)
    ensures Named(n, PickUp, carriers, payees)
  {
  }

  lemma CouriersPickedUp(c: Core, n: Core, carriers: seq<string>, payees: seq<string>)
    requires Named(c, PickUp, carriers, payees)
    requires n == c.(since := n.since, out := n.out, heardAtPickup := |c.heard|)
    ensures Named(n, Transit, if c.trackStages then [OrUnknown(c.courier)] else [], payees)
  {
  }

  lemma CouriersPaid(c: Core, n: Core, carriers: seq<string>, payees: seq<string>)
    requires Named(c, DeliverOrder, carriers, payees)
    requires n == c.(since := n.since, out := n.out, heardAtSettlement := |c.heard|)
    ensures Named(n, Settle, carriers, [OrUnknown(c.courier)])
  {
  }

  lemma PickupBooks(c: Core)
    requires Books(c.out).carriers == []
    ensures var l := Books(Resume(c, PickUp).core.out);
            && l.carriers == (if c.trackStages then [OrUnknown(c.courier)] else [])
            && l.payees == Books(c.out).payees
  {
    BooksAppend(c.out, UpsertStage(InTransit, None, Some(OrUnknown(c.courier))));
  }

  lemma SettlementBooks(c: Core)
    requires Books(c.out).payees == []
    ensures var l := Books(Resume(c, DeliverOrder).core.out);
            && l.carriers == Books(c.out).carriers
            && l.payees == [OrUnknown(c.courier)]
  {
    BooksAppend(c.out, SettlementOf(c.inp, OrUnknown(c.courier)));
  }

  lemma NobodyNamed(c: Core, at: Point, carriers: seq<string>, payees: seq<string>)
    requires Named(c, at, carriers, payees)
    ensures at.PickUp? ==> carriers == []
    ensures at.DeliverOrder? ==> payees == []
  {
  }

  lemma PickingUpCouriers(c: Core)
    requires CouriersKept(c, PickUp)
    ensures CouriersKept(Resume(c, PickUp).core, Transit)
  {
    NobodyNamed(c, PickUp, Books(c.out).carriers, Books(c.out).payees);
    PickupBooks(c);
    CouriersPickedUp(c, Resume(c, PickUp).core, Books(c.out).carriers, Books(c.out).payees);
  }

  lemma PayingCouriers(c: Core)
    requires CouriersKept(c, DeliverOrder)
    ensures CouriersKept(Resume(c, DeliverOrder).core, Settle)
  {
    NobodyNamed(c, DeliverOrder, Books(c.out).carriers, Books(c.out).payees);
    SettlementBooks(c);
    CouriersPaid(c, Resume(c, DeliverOrder).core, Books(c.out).carriers, Books(c.out).payees);
  }

  /** Such an await is left with a command that names nobody, if any. */
  lemma PassingPosted(c: Core, at: Point, l: Ledger)
    requires !at.PickUp? && !at.DeliverOrder?
    ensures Posted(l, Parting(c, at)).carriers == l.carriers && Posted(l, Parting(c, at)).payees == l.payees
  {
    assert l.carriers + [] == l.carriers;
  }

  lemma PassingBooks(c: Core, at: Point)
    requires !at.PickUp? && !at.DeliverOrder?
    ensures Books(c.out + Parting(c, at)).carriers == Books(c.out).carriers
    ensures Books(c.out + Parting(c, at)).payees == Books(c.out).payees
  {
    PartingBooks(c, at);
    PassingPosted(c, at, Books(c.out));
  }

  lemma PassingResume(c: Core, at: Point)
    requires !at.PickUp? && !at.DeliverOrder? && !at.AwaitCourier?
    ensures var n := Resume(c, at).core;
            n == c.(since := n.since, out := c.out + Parting(c, at))
  {
    ResumeParts(c, at);
  }

  lemma PassingCouriers(c: Core, at: Point)
    requires CouriersKept(c, at) && !at.PickUp? && !at.DeliverOrder? && !at.AwaitCourier?
    ensures CouriersKept(Resume(c, at).core, Resume(c, at).at)
  {
    var n := Resume(c, at);
    ResumeMoves(c, at);
    PassingResume(c, at);
    PassingBooks(c, at);
    CouriersPass(c, at, n.core, n.at, Books(c.out).carriers, Books(c.out).payees);
  }

  lemma ResumeCouriers(c: Core, at: Point)
    requires CouriersKept(c, at)
    ensures CouriersKept(Resume(c, at).core, Resume(c, at).at)
  {
    if at.PickUp? {
      PickingUpCouriers(c);
    } else if at.DeliverOrder? {
      PayingCouriers(c);
    } else if at.AwaitCourier? {
      CouriersFound(c, Resume(c, at).core, Books(c.out).carriers, Books(c.out).payees);
    } else {
      PassingCouriers(c, at);
    }
  }

  // ----- faults and timers

  /** Seconds of timer that must have run before `at` was entered. */
  function TimersBehind(c: Core, at: Point): nat {
    (if Position(at) < 5 then 0
     else if Position(at) < 7 then 10
     else if Position(at) < 11 then 80
     else 140)
    + if c.fellBack then 30 else 0
  }

  /** Injected faults stop the saga where they strike, and no timer is cut short. */
  ghost predicate ClockKept(c: Core, at: Point) {
    && c.since <= c.now
    && c.since >= TimersBehind(c, at)
    && (Position(at) == 0 ==> c.since == 0 && c.inp.forceTimeout)
    && (c.inp.forceTimeout ==> Position(at) == 0)
    && (c.inp.slowValidate ==> Position(at) <= 1)
    && (c.inp.failAtRestaurant ==> Position(at) <= 3)
    && (c.fellBack ==> Position(at) >= 9)
  }

  lemma ResumeClock(c: Core, at: Point, wake: Wake)
    requires ClockKept(c, at) && !Expired(c) && Over(c, at, wake)
    ensures ClockKept(Resume(c, at).core, Resume(c, at).at)
  {
  }

  // ----- every schedule

  ghost predicate Kept(m: Machine) {
    && StagesKept(m.core, m.at) && CouriersKept(m.core, m.at) && ClockKept(m.core, m.at)
    && (m.status.Delivered? ==> m.at.Settle?)
  }

  lemma ResumeKept(c: Core, at: Point, wake: Wake)
    requires Kept(Machine(c, at, Running)) && !Expired(c) && Over(c, at, wake)
    ensures Kept(Resume(c, at))
  {
    ResumeStages(c, at);
    ResumeCouriers(c, at);
    ResumeClock(c, at, wake);
  }

  lemma HearKept(c: Core, at: Point, answers: seq<string>)
    requires Kept(Machine(c, at, Running))
    ensures Kept(Machine(Hear(c, answers), at, Running))
  {
    HearCouriers(c, at, answers);
  }

  lemma ClockKeeps(m: Machine, now: nat, status: Status)
    requires Kept(m) && m.core.now <= now && !status.Delivered?
    ensures Kept(Machine(m.core.(now := now), m.at, status))
  {
  }

  lemma WakeKept(c: Core, at: Point, wake: Wake)
    requires Kept(Machine(c, at, Running)) && !Expired(c)
    ensures Kept(if Over(c, at, wake) then Resume(c, at)
                 else if Fails(c, at, wake) then Machine(c, at, Failed)
                 else Machine(c, at, Running))
  {
    if Over(c, at, wake) {
      ResumeKept(c, at, wake);
    } else {
      ClockKeeps(Machine(c, at, Running), c.now, Failed);
    }
  }

  lemma StepKept(m: Machine, a: Activation)
    requires Kept(m)
    ensures Kept(Step(m, a))
  {
    if m.status.Running? {
      var now := if a.now < m.core.now then m.core.now else a.now;
      var c0 := m.core.(now := now);
      ClockKeeps(m, now, TimedOut);
      ClockKeeps(m, now, Running);
      if !Expired(c0) {
        HearKept(c0, m.at, a.answers);
        WakeKept(Hear(c0, a.answers), m.at, a.wake);
      }
    }
  }

  lemma {:induction false} RunKept(m: Machine, es: seq<Activation>)
    requires Kept(m)
    ensures Kept(Run(m, es))
    decreases |es|
  {
    if es == [] {
    } else {
      StepKept(m, es[0]);
      RunKept(Step(m, es[0]), es[1..]);
    }
  }

  lemma ReachedKept(inp: Input, es: seq<Activation>)
    ensures Kept(Reached(inp, es))
  {
    RunKept(Begin(inp), es);
  }

  lemma StagesAt(c: Core, at: Point, l: Ledger)
    requires UpsertsKept(c, at, l)
    ensures l.stages <= [Preparing, AwaitingCourier, InTransit]
    ensures |l.stages| == 3 <==> c.inp.trackStages && Position(at) > Position(PickUp)
    ensures !c.inp.trackStages ==> l.stages == []
  {
  }

  /** Whatever the schedule, the stage upserts are a prefix of preparing,
      awaiting_courier, in_transit: all three exactly when a tracked order got
      past pickup, and none when stages are not tracked. */
  lemma StagesInOrder(inp: Input, es: seq<Activation>)
    ensures var m := Reached(inp, es);
            && Books(m.core.out).stages <= [Preparing, AwaitingCourier, InTransit]
            && (|Books(m.core.out).stages| == 3 <==> inp.trackStages && Position(m.at) > Position(PickUp))
            && (!inp.trackStages ==> Books(m.core.out).stages == [])
  {
    ReachedKept(inp, es);
    ReachedInput(inp, es);
    StagesAt(Reached(inp, es).core, Reached(inp, es).at, Books(Reached(inp, es).core.out));
  }

  lemma StepKeepsInput(m: Machine, a: Activation)
    ensures Step(m, a).core.inp == m.core.inp
  {
    if m.status.Running? {
      var c0 := m.core.(now := if a.now < m.core.now then m.core.now else a.now);
      ResumeParts(Hear(c0, a.answers), m.at);
    }
  }

  lemma {:induction false} RunKeepsInput(m: Machine, es: seq<Activation>)
    ensures Run(m, es).core.inp == m.core.inp
    decreases |es|
  {
    if es == [] {
    } else {
      StepKeepsInput(m, es[0]);
      RunKeepsInput(Step(m, es[0]), es[1..]);
    }
  }

  lemma ReachedInput(inp: Input, es: seq<Activation>)
    ensures Reached(inp, es).core.inp == inp
  {
    RunKeepsInput(Begin(inp), es);
  }

  lemma SettledAt(c: Core, at: Point, l: Ledger)
    requires SettlementsKept(c, at, l)
    ensures |l.payees| == (if at.Settle? then 1 else 0)
    ensures at.Settle? ==> l.settlements == [SettlementOf(c.inp, l.payees[0])]
    ensures !at.Settle? ==> l.settlements == []
  {
  }

  lemma RequestedAt(c: Core, at: Point, l: Ledger)
    requires UpsertsKept(c, at, l)
    ensures |l.requests| <= 1
  {
  }

  /** Settlement is asked for once, on delivery, and a courier at most once; an
      order with an injected fault never settles. */
  lemma SettledExactlyOnDelivery(inp: Input, es: seq<Activation>)
    ensures var m := Reached(inp, es);
            && |Books(m.core.out).requests| <= 1
            && |Books(m.core.out).payees| == (if m.at.Settle? then 1 else 0)
            && (m.at.Settle? ==> Books(m.core.out).settlements == [SettlementOf(inp, Books(m.core.out).payees[0])])
            && (!m.at.Settle? ==> Books(m.core.out).settlements == [])
            && (m.status.Delivered? ==> m.at.Settle?)
            && (inp.forceTimeout || inp.slowValidate || inp.failAtRestaurant ==> !m.at.Settle?)
  {
    ReachedKept(inp, es);
    ReachedInput(inp, es);
    var m := Reached(inp, es);
    SettledAt(m.core, m.at, Books(m.core.out));
    RequestedAt(m.core, m.at, Books(m.core.out));
  }

  // ----- who carries, who is paid

  lemma NamesDifferIff(heard: seq<string>, m: nat, n: nat, fallback: Option<string>)
    requires m <= n <= |heard|
    ensures OrUnknown(Effective(heard, m, fallback)) != OrUnknown(Effective(heard, n, fallback)) <==>
              m < n && OrUnknown(Some(heard[n - 1])) != OrUnknown(Effective(heard, m, fallback))
  {
  }

  lemma SingletonsDiffer(x: string, y: string)
    ensures [x] != [y] <==> x != y
  {
    assert [x][0] == x && [y][0] == y;
  }

  lemma NamedAtSettle(c: Core)
    requires c.trackStages && CouriersKept(c, Settle)
    ensures c.heardAtPickup <= c.heardAtSettlement <= |c.heard|
    ensures Books(c.out).carriers == [OrUnknown(Effective(c.heard, c.heardAtPickup, Fallback(c)))]
    ensures Books(c.out).payees == [OrUnknown(Effective(c.heard, c.heardAtSettlement, Fallback(c)))]
  {
  }

  /** Both name one courier, and different ones if and only if an answer naming
      somebody else came in between. */
  ghost predicate SplitsOnLateAnswer(c: Core) {
    var carriers, payees := Books(c.out).carriers, Books(c.out).payees;
    && |carriers| == 1 && |payees| == 1
    && c.heardAtPickup <= c.heardAtSettlement <= |c.heard|
    && (carriers != payees <==>
          && c.heardAtPickup < c.heardAtSettlement
          && OrUnknown(Some(c.heard[c.heardAtSettlement - 1])) != carriers[0])
  }

  lemma SettledSplits(c: Core)
    requires c.trackStages && CouriersKept(c, Settle)
    ensures SplitsOnLateAnswer(c)
  {
    NamedAtSettle(c);
    NamesDifferIff(c.heard, c.heardAtPickup, c.heardAtSettlement, Fallback(c));
    SingletonsDiffer(Books(c.out).carriers[0], Books(c.out).payees[0]);
  }

  /** Pickup and settlement name different couriers exactly when an answer came
      in between that names someone else. */
  lemma CourierSplitsExactlyOnLateAnswer(inp: Input, es: seq<Activation>)
    requires inp.trackStages && Reached(inp, es).at.Settle?
    ensures SplitsOnLateAnswer(Reached(inp, es).core)
  {
    ReachedKept(inp, es);
    ReachedInput(inp, es);
    SettledSplits(Reached(inp, es).core);
  }

  /** Whom a settled order pays and, if stages are tracked, who carried it, when
      at most one answer was heard. */
  ghost predicate OneCourier(c: Core) {
    PaysOne(c, Books(c.out).payees) && CarriesOne(c, Books(c.out).carriers, Books(c.out).payees)
  }

  /** Answered in time, the answer is paid; else the fallback or the answer. */
  predicate PaysOne(c: Core, payees: seq<string>) {
    && (c.heard == [] ==> c.fellBack)
    && (payees == [FallbackCourier(c.inp.orderId)] || (c.heard != [] && payees == [OrUnknown(Some(c.heard[0]))]))
    && (!c.fellBack ==> c.heard != [] && payees == [OrUnknown(Some(c.heard[0]))])
  }

  /** The carrier is whoever is paid, or else the fallback that was outrun. */
  predicate CarriesOne(c: Core, carriers: seq<string>, payees: seq<string>) {
    if c.trackStages then carriers == payees || (c.fellBack && carriers == [FallbackCourier(c.inp.orderId)])
    else carriers == []
  }

  lemma OneAnswerPays(c: Core, carriers: seq<string>, payees: seq<string>)
    requires Named(c, Settle, carriers, payees) && |c.heard| <= 1
    ensures PaysOne(c, payees)
    ensures c.heardAtSettlement == 1 ==> payees == [OrUnknown(Some(c.heard[0]))]
  {
  }

  lemma OneAnswerCarries(c: Core, carriers: seq<string>, payees: seq<string>)
    requires Named(c, Settle, carriers, payees) && |c.heard| <= 1
    ensures CarriesOne(c, carriers, payees)
    ensures c.trackStages && c.heardAtPickup == 0 ==> carriers == [FallbackCourier(c.inp.orderId)]
  {
  }

  lemma OneAnswer(c: Core)
    requires CouriersKept(c, Settle) && |c.heard| <= 1
    ensures OneCourier(c)
    ensures c.trackStages && c.heardAtPickup == 0 ==> Books(c.out).carriers == [FallbackCourier(c.inp.orderId)]
    ensures c.heardAtSettlement == 1 ==> Books(c.out).payees == [OrUnknown(Some(c.heard[0]))]
  {
    OneAnswerPays(c, Books(c.out).carriers, Books(c.out).payees);
    OneAnswerCarries(c, Books(c.out).carriers, Books(c.out).payees);
  }

  /** With at most one answer in the order's life: answered in time, settlement
      and, if stages are tracked, pickup name that courier; otherwise each names
      the fallback or the one answer, and settlement never goes back to the
      fallback. */
  lemma OneAnswerOneCourier(inp: Input, es: seq<Activation>)
    requires Reached(inp, es).at.Settle? && |Reached(inp, es).core.heard| <= 1
    ensures OneCourier(Reached(inp, es).core)
    ensures Reached(inp, es).core.inp == inp && Reached(inp, es).core.trackStages == inp.trackStages
  {
    ReachedKept(inp, es);
    ReachedInput(inp, es);
    OneAnswer(Reached(inp, es).core);
  }

  /** Nobody is paid as "unknown" unless an answer is empty or says so itself. */
  lemma SettledCourierIsKnown(inp: Input, es: seq<Activation>)
    requires Reached(inp, es).at.Settle?
    requires "" !in Reached(inp, es).core.heard && "unknown" !in Reached(inp, es).core.heard
    ensures Books(Reached(inp, es).core.out).payees != ["unknown"]
  {
    ReachedKept(inp, es);
    ReachedInput(inp, es);
    var c := Reached(inp, es).core;
    var payee := OrUnknown(Effective(c.heard, c.heardAtSettlement, Fallback(c)));
    assert Books(c.out).payees == [payee];
    assert FallbackCourier(inp.orderId)[0] == 's' && "unknown"[0] == 'u';
    assert payee != "unknown";
    assert [payee][0] == payee;
  }

  predicate Faultless(inp: Input) {
    !inp.forceTimeout && !inp.slowValidate && !inp.failAtRestaurant
  }

  /** One await is over at `now`, with no answer. */
  lemma Tick(m: Machine, now: nat)
    requires m.status.Running? && Faultless(m.core.inp) && now >= m.core.now
    requires TimerOf(m.at).Some? ==> now >= m.core.since + TimerOf(m.at).value
    ensures var n := Step(m, Activation([], Done([]), now));
            && n == Resume(m.core.(now := now), m.at)
            && n.core.inp == m.core.inp && n.core.heard == m.core.heard
            && n.core.now == now && n.core.courier.Some? == (m.core.courier.Some? || m.at.AwaitCourier?)
            && (!m.at.Settle? ==> n.core.since == now)
            && (!m.at.PickUp? ==> n.core.heardAtPickup == m.core.heardAtPickup)
            && (m.at.PickUp? ==> n.core.heardAtPickup == |m.core.heard|)
            && (!m.at.DeliverOrder? ==> n.core.heardAtSettlement == m.core.heardAtSettlement)
            && (m.at.DeliverOrder? ==> n.core.heardAtSettlement == |m.core.heard|)
  {
    ResumeParts(m.core.(now := now), m.at);
  }

  /** A schedule on which dispatch stays silent for thirty seconds and answers
      while the order is being driven. */
  function LateSchedule(name: string): seq<Activation> {
    LateKitchen() + LateDispatch() + LateDrive(name)
  }

  function LateKitchen(): seq<Activation> {
    var ok := Done([]);
    [Activation([], ok, 0), Activation([], ok, 0), Activation([], ok, 0), Activation([], ok, 10)]
  }

  function LateDispatch(): seq<Activation> {
    var ok := Done([]);
    [Activation([], ok, 10), Activation([], ok, 80), Activation([], ok, 80), Activation([], ok, 110)]
  }

  function LateDrive(name: string): seq<Activation> {
    var ok := Done([]);
    [Activation([], ok, 110), Activation([name], Nothing, 120), Activation([], ok, 170), Activation([], ok, 170)]
  }

  lemma {:induction false} RunAppend(m: Machine, x: seq<Activation>, y: seq<Activation>)
    ensures Run(m, x + y) == Run(Run(m, x), y)
    decreases |x|
  {
    if x == [] {
      assert x + y == y;
    } else {
      assert (x + y)[1..] == x[1..] + y;
      RunAppend(Step(m, x[0]), x[1..], y);
    }
  }

  lemma LateKitchenEnds(inp: Input)
    requires Faultless(inp)
    ensures var m := Run(Begin(inp), LateKitchen());
            && m.status.Running? && m.at == Poll && m.core.now == m.core.since == 10
            && m.core.heard == [] && m.core.courier.None? && m.core.inp == inp
  {
    var e := LateKitchen();
    var m := Begin(inp);
    Tick(m, 0);
    var m1 := Step(m, e[0]);
    Tick(m1, 0);
    var m2 := Step(m1, e[1]);
    Tick(m2, 0);
    var m3 := Step(m2, e[2]);
    Tick(m3, 10);
    RunFour(m, e);
  }

  lemma LateDispatchEnds(m: Machine)
    requires m.status.Running? && m.at == Poll && m.core.now == m.core.since == 10
    requires m.core.heard == [] && m.core.courier.None? && Faultless(m.core.inp)
    ensures var n := Run(m, LateDispatch());
            n.status.Running? && n.at == PickUp && n.core.now == 110 && n.core.heard == [] && n.core.inp == m.core.inp
  {
    var e := LateDispatch();
    Tick(m, 10);
    var m1 := Step(m, e[0]);
    Tick(m1, 80);
    var m2 := Step(m1, e[1]);
    Tick(m2, 80);
    var m3 := Step(m2, e[2]);
    Tick(m3, 110);
    RunFour(m, e);
  }

  lemma RunFour(m: Machine, e: seq<Activation>)
    requires |e| == 4
    ensures Run(m, e) == Step(Step(Step(Step(m, e[0]), e[1]), e[2]), e[3])
  {
    var m1 := Step(m, e[0]);
    var m2 := Step(m1, e[1]);
    var m3 := Step(m2, e[2]);
    assert e[1..][0] == e[1] && e[1..][1..] == e[2..];
    assert e[2..][0] == e[2] && e[2..][1..] == e[3..];
    assert e[3..][0] == e[3] && e[3..][1..] == [];
    assert Run(m3, e[3..]) == Run(Step(m3, e[3]), []);
    assert Run(m2, e[2..]) == Run(m3, e[3..]);
    assert Run(m1, e[1..]) == Run(m2, e[2..]);
  }

  /** An answer that comes while the order is being driven. */
  lemma HearsInTransit(m: Machine, name: string)
    requires m.status.Running? && m.at == Transit && m.core.now == m.core.since == 110
    requires m.core.heard == [] && Faultless(m.core.inp)
    ensures var n := Step(m, Activation([name], Nothing, 120));
            && n == Machine(Hear(m.core.(now := 120), [name]), Transit, Running)
            && n.core.heard == [name] && n.core.now == 120
  {
    assert [] + [name] == [name];
  }

  /** Driven with an answer heard on the way. */
  predicate HeardOnTheWay(m: Machine, name: string) {
    && m.status.Running? && m.at == Transit && m.core.since == 110 && m.core.now == 120
    && m.core.heard == [name] && m.core.heardAtPickup == 0 && Faultless(m.core.inp)
  }

  lemma LatePickupEnds(m: Machine, name: string)
    requires m.status.Running? && m.at == PickUp && m.core.now == 110 && m.core.heard == []
    requires Faultless(m.core.inp)
    ensures HeardOnTheWay(Step(Step(m, LateDrive(name)[0]), LateDrive(name)[1]), name)
  {
    Tick(m, 110);
    HearsInTransit(Step(m, LateDrive(name)[0]), name);
  }

  lemma LateHandoverEnds(m: Machine, name: string)
    requires HeardOnTheWay(m, name)
    ensures var n := Step(Step(m, LateDrive(name)[2]), LateDrive(name)[3]);
            n.at == Settle && n.core.heard == [name] && n.core.heardAtPickup == 0 && n.core.heardAtSettlement == 1
  {
    Tick(m, 170);
    Tick(Step(m, LateDrive(name)[2]), 170);
  }

  lemma LateDriveEnds(m: Machine, name: string)
    requires m.status.Running? && m.at == PickUp && m.core.now == 110 && m.core.heard == []
    requires Faultless(m.core.inp)
    ensures var n := Run(m, LateDrive(name));
            && n.at == Settle && n.core.heard == [name]
            && n.core.heardAtPickup == 0 && n.core.heardAtSettlement == 1
  {
    LatePickupEnds(m, name);
    LateHandoverEnds(Step(Step(m, LateDrive(name)[0]), LateDrive(name)[1]), name);
    RunFour(m, LateDrive(name));
  }

  /** The split does happen, to any order: on that schedule the fallback carries
      the order and somebody else is paid. */
  lemma LateAnswerSplitsCourier(inp: Input, name: string)
    requires Faultless(inp) && inp.trackStages
    requires name != "" && name != FallbackCourier(inp.orderId)
    ensures var m := Reached(inp, LateSchedule(name));
            && m.at.Settle?
            && Books(m.core.out).carriers == [FallbackCourier(inp.orderId)]
            && Books(m.core.out).payees == [name]
  {
    var s := LateSchedule(name);
    LateKitchenEnds(inp);
    var m := Run(Begin(inp), LateKitchen());
    LateDispatchEnds(m);
    LateDriveEnds(Run(m, LateDispatch()), name);
    RunAppend(Begin(inp), LateKitchen() + LateDispatch(), LateDrive(name));
    RunAppend(Begin(inp), LateKitchen(), LateDispatch());
    ReachedKept(inp, s);
    ReachedInput(inp, s);
    OneAnswer(Reached(inp, s).core);
  }
}
