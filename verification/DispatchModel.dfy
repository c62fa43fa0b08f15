/**
 A delivery region's dispatch entity as a state machine over its await points.

 One activation delivers a batch of signals and may complete whatever the
 coroutine awaits; everything between two awaits happens in one transition.
 Continue-as-new starts the next run at once: the carried state passes through
 the prologue and the first segment before that run can handle any signal.
 */
module DispatchModel {
  import opened Names

  const MAX_PROCESSED: nat := 200
  const MAX_HISTORY: nat := 1500
  const KEPT_COURIERS: nat := 50
  const DEFAULT_RATE: int := 40

  // Events a run has recorded when its first workflow task is handled.
  const RUN_START_HISTORY: nat := 3

  datatype Order = Order(orderId: string, workflowId: string)

  datatype Status = Healthy | Degraded

  datatype Degradation = Degradation(suspendCan: bool, inflateHistory: bool, inflateRate: int) {
    function Status(): Status {
      if suspendCan || inflateHistory then Degraded else Healthy
    }

    /** How many markers one inflating iteration adds. */
    function Rate(): nat {
      var rate := if inflateRate == 0 then DEFAULT_RATE else inflateRate;
      if rate < 1 then 1 else rate
    }
  }

  const NO_DEGRADATION: Degradation := Degradation(false, false, DEFAULT_RATE)

  /** What one run hands the next. */
  datatype State = State(
    region: string,
    pendingOrders: seq<Order>,
    availableCouriers: seq<string>,
    processed: nat,
    degradation: Degradation)

  function FreshState(region: string): State {
    State(region, [], [], 0, NO_DEGRADATION)
  }

  datatype Signal =
    | OrderReady(order: Order)
    | CourierAvailable(courier: string)
    | SetDegradation(degradation: Degradation)

  /** `history` is the run's history length as this activation reports it. */
  datatype Activation = Activation(signals: seq<Signal>, done: bool, history: nat)

  datatype Pick = Real(id: string) | Synthetic(region: string, serial: nat) {
    function Name(): string {
      match this
      case Real(id) => id
      case Synthetic(region, serial) => SyntheticCourier(region, serial)
    }
  }

  /** What the entity asks the server to do. `dropped` is not part of the
      command: it records the courier reports the carried state leaves out. */
  datatype Command =
    | RunNoop(sequence: nat)
    | UpsertStatus(status: Status, pendingCount: nat)
    | AssignCourier(order: Order, pick: Pick)
    | SignalOrder(workflowId: string, courier: string)
    | ContinueAsNew(carry: State, stamp: Status, pendingStamp: nat, endedAt: nat, dropped: seq<string>)

  /** The fields of the workflow object, with the run's history length and
      every command issued so far, over all runs. */
  datatype Core = Core(
    region: string,
    pending: seq<Order>,
    couriers: seq<string>,
    processed: nat,
    degradation: Degradation,
    sequence: nat,
    published: Status,
    history: nat,
    out: seq<Command>)

  /** Where the coroutine is suspended. */
  datatype Point =
    | Noop(left: nat)
    | Sleep
    | Wait
    | Assign(order: Order, pick: Pick)
    | Notify(order: Order, pick: Pick)

  datatype Machine = Machine(core: Core, at: Point)

  /** The thresholds as the source sets them, or a region that never recycles. */
  datatype Bounds = Thresholds | Unbounded

  // ----- signal handlers

  function Handle(c: Core, s: Signal): Core {
    match s
    case OrderReady(order) => c.(pending := c.pending + [order])
    case CourierAvailable(courier) => c.(couriers := c.couriers + [courier])
    case SetDegradation(d) => c.(degradation := d)
  }

  function Deliver(c: Core, batch: seq<Signal>): Core
    decreases |batch|
  {
    if batch == [] then c else Deliver(Handle(c, batch[0]), batch[1..])
  }

  // ----- straight-line pieces of the run

  function Emit(c: Core, command: Command): Core {
    c.(out := c.out + [command])
  }

  function Publish(c: Core): Core {
    var status := c.degradation.Status();
    if status == c.published then c
    else Emit(c, UpsertStatus(status, |c.pending|)).(published := status)
  }

  function Bump(c: Core): Core {
    Emit(c.(sequence := c.sequence + 1), RunNoop(c.sequence + 1))
  }

  predicate Wakes(b: Bounds, c: Core) {
    || c.pending != []
    || c.degradation.inflateHistory
    || c.degradation.Status() != c.published
    || (b.Thresholds? && !c.degradation.suspendCan && c.history > MAX_HISTORY)
  }

  predicate Recycles(b: Bounds, c: Core) {
    && b.Thresholds?
    && !c.degradation.suspendCan
    && (c.processed >= MAX_PROCESSED || c.history > MAX_HISTORY)
  }

  function Newest<T>(s: seq<T>, n: nat): seq<T> {
    if |s| <= n then s else s[|s| - n..]
  }

  function Carry(c: Core): State {
    State(c.region, c.pending, Newest(c.couriers, KEPT_COURIERS), 0, c.degradation)
  }

  function Recycled(c: Core): Command {
    var carry := Carry(c);
    ContinueAsNew(carry, c.degradation.Status(), |c.pending|, c.history,
                  c.couriers[..|c.couriers| - |carry.availableCouriers|])
  }

  function Prologue(state: State, out: seq<Command>): Core {
    Core(state.region, state.pendingOrders, state.availableCouriers, state.processed,
         state.degradation, 0, state.degradation.Status(), RUN_START_HISTORY, out)
  }

  function NewRun(c: Core): Core {
    Prologue(Carry(c), c.out + [Recycled(c)])
  }

  // ----- segments: from a program point to the next await

  function StartNoops(c: Core): Machine {
    Machine(Bump(c), Noop(c.degradation.Rate() - 1))
  }

  /** The next order meets the longest-waiting courier, or a made-up one. */
  function Take(c: Core): Machine
    requires c.pending != []
  {
    var order := c.pending[0];
    var pick := if c.couriers == [] then Synthetic(c.region, c.processed) else Real(c.couriers[0]);
    var rest := if c.couriers == [] then [] else c.couriers[1..];
    Machine(Emit(c.(pending := c.pending[1..], couriers := rest), AssignCourier(order, pick)),
            Assign(order, pick))
  }

  /** Loop top with nothing pending and no recycling owed. */
  function Rest(c: Core): Machine {
    if c.degradation.inflateHistory then StartNoops(c) else Machine(Publish(c), Wait)
  }

  function Recycle(c: Core): Machine {
    Rest(NewRun(c))
  }

  /** From the drain's loop test to the next await. */
  function Drain(b: Bounds, c: Core): Machine {
    if c.pending != [] then Take(c)
    else if Recycles(b, c) then Recycle(c)
    else Rest(c)
  }

  /** From the top of the main loop to the next await. */
  function LoopTop(b: Bounds, c: Core): Machine {
    if c.degradation.inflateHistory then StartNoops(c)
    else if Wakes(b, c) then Drain(b, Publish(c))
    else Machine(c, Wait)
  }

  function Begin(b: Bounds, state: State): Machine {
    LoopTop(b, Prologue(state, []))
  }

  /** The awaited activity, timer or signal call is over. */
  function Resume(b: Bounds, c: Core, at: Point): Machine
    requires !at.Wait?
  {
    match at
    case Noop(left) => if left == 0 then Machine(c, Sleep) else Machine(Bump(c), Noop(left - 1))
    case Sleep => Drain(b, Publish(c))
    case Assign(order, pick) =>
      Machine(Emit(c, SignalOrder(order.workflowId, pick.Name())), Notify(order, pick))
    case Notify(_, _) => Drain(b, c.(processed := c.processed + 1))
  }

  function Step(b: Bounds, m: Machine, a: Activation): Machine {
    var c := Deliver(m.core.(history := a.history), a.signals);
    if m.at.Wait? then if Wakes(b, c) then Drain(b, Publish(c)) else Machine(c, Wait)
    else if a.done then Resume(b, c, m.at)
    else Machine(c, m.at)
  }

  function Run(b: Bounds, m: Machine, es: seq<Activation>): Machine
    decreases |es|
  {
    if es == [] then m else Run(b, Step(b, m, es[0]), es[1..])
  }

  /** Everything a region can be, from the state the generator starts it in. */
  function Reached(region: string, es: seq<Activation>): Machine {
    Run(Thresholds, Begin(Thresholds, FreshState(region)), es)
  }

  // ----- the recycling check

  /** The activation brings the coroutine to the recycling check. */
  predicate Ends(m: Machine, a: Activation) {
    var c := Deliver(m.core.(history := a.history), a.signals);
    && c.pending == []
    && if m.at.Wait? then Wakes(Thresholds, c) else a.done && (m.at.Sleep? || m.at.Notify?)
  }

  /** What the check looks at. */
  function AtCheck(m: Machine, a: Activation): Core {
    var c := Deliver(m.core.(history := a.history), a.signals);
    if m.at.Notify? then c.(processed := c.processed + 1) else Publish(c)
  }

  /** The check decides what such an activation does. */
  lemma CheckDecides(m: Machine, a: Activation)
    requires Ends(m, a)
    ensures Step(Thresholds, m, a) ==
            if Recycles(Thresholds, AtCheck(m, a)) then Recycle(AtCheck(m, a)) else Rest(AtCheck(m, a))
  {
  }

  // ----- the closed forms above are the source's loops

  lemma RestIsLoopTop(c: Core)
    requires c.pending == [] && !Recycles(Thresholds, c)
    ensures Rest(c) == LoopTop(Thresholds, c)
  {
  }

  lemma RecycleIsLoopTop(c: Core)
    requires c.pending == []
    ensures Recycle(c) == LoopTop(Thresholds, NewRun(c))
  {
  }
}
