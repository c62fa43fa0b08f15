/** What the commands a region issued say about its orders and couriers. */
module DispatchLedger {
  import opened DispatchModel

  // ----- reading signals and commands

  function OrdersIn(batch: seq<Signal>): seq<Order>
    decreases |batch|
  {
    if batch == [] then []
    else (if batch[0].OrderReady? then [batch[0].order] else []) + OrdersIn(batch[1..])
  }

  function CouriersIn(batch: seq<Signal>): seq<string>
    decreases |batch|
  {
    if batch == [] then []
    else (if batch[0].CourierAvailable? then [batch[0].courier] else []) + CouriersIn(batch[1..])
  }

  function DegradationsIn(batch: seq<Signal>): seq<Degradation>
    decreases |batch|
  {
    if batch == [] then []
    else (if batch[0].SetDegradation? then [batch[0].degradation] else []) + DegradationsIn(batch[1..])
  }

  function LastDegradation(d: Degradation, batch: seq<Signal>): Degradation
    decreases |batch|
  {
    if batch == [] then d
    else LastDegradation(if batch[0].SetDegradation? then batch[0].degradation else d, batch[1..])
  }

  function OrdersOf(es: seq<Activation>): seq<Order>
    decreases |es|
  {
    if es == [] then [] else OrdersIn(es[0].signals) + OrdersOf(es[1..])
  }

  function CouriersOf(es: seq<Activation>): seq<string>
    decreases |es|
  {
    if es == [] then [] else CouriersIn(es[0].signals) + CouriersOf(es[1..])
  }

  /** What the commands issued so far add up to. */
  datatype Ledger = Ledger(
    taken: seq<Order>,               // orders assigned, in order
    owed: seq<(string, string)>,     // the answer each assignment owes
    told: seq<(string, string)>,     // the answers given
    used: seq<string>,               // reported couriers that were paired
    shed: seq<string>,               // reported couriers a recycling left out
    gone: seq<string>,               // reported couriers paired or shed, in order
    runPicks: seq<Pick>,             // the current run's picks
    lossless: bool)                  // no recycling so far stranded an order

  const EMPTY_LEDGER: Ledger := Ledger([], [], [], [], [], [], [], true)

  function Post(l: Ledger, x: Command): Ledger {
    match x
    case AssignCourier(order, pick) =>
      var reported := if pick.Real? then [pick.id] else [];
      l.(taken := l.taken + [order],
         owed := l.owed + [(order.workflowId, pick.Name())],
         used := l.used + reported,
         gone := l.gone + reported,
         runPicks := l.runPicks + [pick])
    case SignalOrder(workflowId, courier) => l.(told := l.told + [(workflowId, courier)])
    case ContinueAsNew(_, _, _, _, dropped) =>
      l.(shed := l.shed + dropped, gone := l.gone + dropped, runPicks := [], lossless := l.lossless && Lossless(x))
    case _ => l
  }

  function Books(out: seq<Command>): Ledger
    decreases |out|
  {
    if out == [] then EMPTY_LEDGER else Post(Books(out[..|out| - 1]), out[|out| - 1])
  }

  /** Continue-as-new strands no order, and sheds couriers only beyond fifty. */
  predicate Lossless(x: Command)
    requires x.ContinueAsNew?
  {
    && x.carry.pendingOrders == [] && x.pendingStamp == 0 && x.carry.processed == 0
    && x.stamp == x.carry.degradation.Status() && !x.carry.degradation.suspendCan
    && |x.carry.availableCouriers| <= 50
    && (x.dropped != [] ==> |x.carry.availableCouriers| == 50)
  }

  function InFlight(at: Point): seq<Order> {
    if at.Assign? || at.Notify? then [at.order] else []
  }

  function Unanswered(at: Point): seq<(string, string)> {
    if at.Assign? then [(at.order.workflowId, at.pick.Name())] else []
  }

  lemma BooksAppend(out: seq<Command>, x: Command)
    ensures Books(out + [x]) == Post(Books(out), x)
  {
    assert (out + [x])[..|out|] == out;
  }

  lemma Assoc<T>(a: seq<T>, b: seq<T>, c: seq<T>)
    ensures (a + b) + c == a + (b + c)
  {
  }

  /** A batch touches the two queues and the mode, and nothing else. */
  lemma {:induction false} DeliverAppends(c: Core, batch: seq<Signal>)
    ensures Deliver(c, batch) == c.(
      pending := c.pending + OrdersIn(batch),
      couriers := c.couriers + CouriersIn(batch),
      degradation := LastDegradation(c.degradation, batch))
    decreases |batch|
  {
    if batch == [] {
      assert c.pending + [] == c.pending && c.couriers + [] == c.couriers;
    } else {
      var s, rest := batch[0], batch[1..];
      DeliverAppends(Handle(c, s), rest);
      Assoc(c.pending, if s.OrderReady? then [s.order] else [], OrdersIn(rest));
      Assoc(c.couriers, if s.CourierAvailable? then [s.courier] else [], CouriersIn(rest));
      assert c.pending + [] == c.pending && c.couriers + [] == c.couriers;
    }
  }

  lemma {:induction false} LastOfDegradations(d: Degradation, batch: seq<Signal>)
    ensures var ds := DegradationsIn(batch);
            LastDegradation(d, batch) == if ds == [] then d else ds[|ds| - 1]
    decreases |batch|
  {
    if batch == [] {
    } else if batch[0].SetDegradation? {
      LastOfDegradations(batch[0].degradation, batch[1..]);
    } else {
      LastOfDegradations(d, batch[1..]);
    }
  }

  // ----- the books balance

  /** Orders, courier reports and answers at an await. */
  ghost predicate Balanced(m: Machine, orders: seq<Order>, reports: seq<string>) {
    var l := Books(m.core.out);
    && l.taken + m.core.pending == orders
    && l.gone + m.core.couriers == reports
    && l.owed == l.told + Unanswered(m.at)
    && InFlight(m.at) <= NewestOf(l.taken)
    && l.lossless
    && |l.runPicks| == m.core.processed + |InFlight(m.at)|
    && Numbered(l.runPicks, m.core.region)
  }

  /** A made-up courier is numbered by its place among the run's picks. */
  ghost predicate Numbered(picks: seq<Pick>, region: string) {
    forall j :: 0 <= j < |picks| && picks[j].Synthetic? ==> picks[j] == Synthetic(region, j)
  }

  function NewestOf<T>(s: seq<T>): seq<T> {
    if s == [] then [] else [s[|s| - 1]]
  }

  /** The same, between two awaits. */
  ghost predicate Settled(c: Core, orders: seq<Order>, reports: seq<string>) {
    Balanced(Machine(c, Wait), orders, reports)
  }

  lemma QuietEmitSettled(c: Core, x: Command, orders: seq<Order>, reports: seq<string>)
    requires Settled(c, orders, reports) && (x.RunNoop? || x.UpsertStatus?)
    ensures Settled(Emit(c, x), orders, reports)
  {
    BooksAppend(c.out, x);
  }

  lemma NewestSplits<T>(gone: seq<T>, s: seq<T>, n: nat)
    ensures gone + s[..|s| - |Newest(s, n)|] + Newest(s, n) == gone + s
  {
    assert s == s[..|s| - |Newest(s, n)|] + Newest(s, n);
  }

  lemma NewRunSettled(c: Core, orders: seq<Order>, reports: seq<string>)
    requires Settled(c, orders, reports) && c.pending == [] && !c.degradation.suspendCan
    ensures Settled(NewRun(c), orders, reports)
  {
    BooksAppend(c.out, Recycled(c));
    NewestSplits(Books(c.out).gone, c.couriers, KEPT_COURIERS);
  }

  lemma PublishSettled(c: Core, orders: seq<Order>, reports: seq<string>)
    requires Settled(c, orders, reports)
    ensures Settled(Publish(c), orders, reports)
  {
    QuietEmitSettled(c, UpsertStatus(c.degradation.Status(), |c.pending|), orders, reports);
  }

  lemma BumpSettled(c: Core, orders: seq<Order>, reports: seq<string>)
    requires Settled(c, orders, reports)
    ensures Settled(Bump(c), orders, reports)
  {
    QuietEmitSettled(c.(sequence := c.sequence + 1), RunNoop(c.sequence + 1), orders, reports);
  }

  lemma RestBalanced(c: Core, orders: seq<Order>, reports: seq<string>)
    requires Settled(c, orders, reports)
    ensures Balanced(Rest(c), orders, reports)
  {
    if c.degradation.inflateHistory {
      BumpSettled(c, orders, reports);
    } else {
      PublishSettled(c, orders, reports);
    }
  }

  /** What an assignment adds to the books. */
  lemma TakePosts(c: Core)
    requires c.pending != []
    ensures var t := Take(c);
            var l, n := Books(c.out), Books(t.core.out);
            && n.taken == l.taken + [c.pending[0]] && n.told == l.told && n.lossless == l.lossless
            && n.gone == l.gone + (if c.couriers == [] then [] else [c.couriers[0]])
            && n.owed == l.owed + Unanswered(t.at)
            && n.runPicks == l.runPicks + [t.at.pick]
  {
    BooksAppend(c.out, AssignCourier(Take(c).at.order, Take(c).at.pick));
  }

  lemma MovesOver<T>(a: seq<T>, b: seq<T>)
    ensures b != [] ==> a + [b[0]] + b[1..] == a + b
    ensures a + [] == a
  {
    if b != [] {
      assert b == [b[0]] + b[1..];
    }
  }

  lemma TakeBalanced(c: Core, orders: seq<Order>, reports: seq<string>)
    requires Settled(c, orders, reports) && c.pending != []
    ensures Balanced(Take(c), orders, reports)
  {
    TakePosts(c);
    MovesOver(Books(c.out).taken, c.pending);
    MovesOver(Books(c.out).gone, c.couriers);
  }

  lemma DrainBalanced(b: Bounds, c: Core, orders: seq<Order>, reports: seq<string>)
    requires Settled(c, orders, reports)
    ensures Balanced(Drain(b, c), orders, reports)
  {
    if c.pending != [] {
      TakeBalanced(c, orders, reports);
    } else if Recycles(b, c) {
      NewRunSettled(c, orders, reports);
      RestBalanced(NewRun(c), orders, reports);
    } else {
      RestBalanced(c, orders, reports);
    }
  }

  lemma DeliverBalanced(m: Machine, a: Activation, orders: seq<Order>, reports: seq<string>)
    requires Balanced(m, orders, reports)
    ensures Balanced(Machine(Deliver(m.core.(history := a.history), a.signals), m.at),
                     orders + OrdersIn(a.signals), reports + CouriersIn(a.signals))
  {
    DeliverAppends(m.core.(history := a.history), a.signals);
  }

  lemma AnswerBalanced(c: Core, at: Point, orders: seq<Order>, reports: seq<string>)
    requires at.Assign? && Balanced(Machine(c, at), orders, reports)
    ensures Balanced(Machine(Emit(c, SignalOrder(at.order.workflowId, at.pick.Name())), Notify(at.order, at.pick)),
                     orders, reports)
  {
    BooksAppend(c.out, SignalOrder(at.order.workflowId, at.pick.Name()));
  }

  lemma ServedSettled(c: Core, at: Point, orders: seq<Order>, reports: seq<string>)
    requires at.Notify? && Balanced(Machine(c, at), orders, reports)
    ensures Settled(c.(processed := c.processed + 1), orders, reports)
  {
  }

  lemma ResumeBalanced(b: Bounds, c: Core, at: Point, orders: seq<Order>, reports: seq<string>)
    requires !at.Wait? && Balanced(Machine(c, at), orders, reports)
    ensures Balanced(Resume(b, c, at), orders, reports)
  {
    if at.Noop? {
      BumpSettled(c, orders, reports);
    } else if at.Sleep? {
      PublishSettled(c, orders, reports);
      DrainBalanced(b, Publish(c), orders, reports);
    } else if at.Assign? {
      AnswerBalanced(c, at, orders, reports);
    } else {
      ServedSettled(c, at, orders, reports);
      DrainBalanced(b, c.(processed := c.processed + 1), orders, reports);
    }
  }

  lemma StepBalanced(b: Bounds, m: Machine, a: Activation, orders: seq<Order>, reports: seq<string>)
    requires Balanced(m, orders, reports)
    ensures Balanced(Step(b, m, a), orders + OrdersIn(a.signals), reports + CouriersIn(a.signals))
  {
    DeliverBalanced(m, a, orders, reports);
    var c := Deliver(m.core.(history := a.history), a.signals);
    var orders', reports' := orders + OrdersIn(a.signals), reports + CouriersIn(a.signals);
    if m.at.Wait? {
      PublishSettled(c, orders', reports');
      DrainBalanced(b, Publish(c), orders', reports');
    } else if a.done {
      ResumeBalanced(b, c, m.at, orders', reports');
    }
  }

  lemma {:induction false} RunBalanced(b: Bounds, m: Machine, es: seq<Activation>,
      orders: seq<Order>, reports: seq<string>)
    requires Balanced(m, orders, reports)
    ensures Balanced(Run(b, m, es), orders + OrdersOf(es), reports + CouriersOf(es))
    decreases |es|
  {
    if es == [] {
      assert orders + [] == orders && reports + [] == reports;
    } else {
      StepBalanced(b, m, es[0], orders, reports);
      RunBalanced(b, Step(b, m, es[0]), es[1..],
                  orders + OrdersIn(es[0].signals), reports + CouriersIn(es[0].signals));
      Assoc(orders, OrdersIn(es[0].signals), OrdersOf(es[1..]));
      Assoc(reports, CouriersIn(es[0].signals), CouriersOf(es[1..]));
    }
  }

  lemma ReachedBalanced(region: string, es: seq<Activation>)
    ensures Balanced(Reached(region, es), OrdersOf(es), CouriersOf(es))
  {
    RunBalanced(Thresholds, Begin(Thresholds, FreshState(region)), es, [], []);
    assert [] + OrdersOf(es) == OrdersOf(es) && [] + CouriersOf(es) == CouriersOf(es);
  }
}
