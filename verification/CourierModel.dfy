/**
 A courier's shift as a state machine over its await points. Continue-as-new
 carries the counters and nothing else: neither queued assignments nor a pending
 end of shift.
 */
module CourierModel {
  import opened Names

  const MAX_HISTORY: nat := 1500
  const RUN_START_HISTORY: nat := 3

  datatype Signal = LocationPing | Assignment(orderId: string) | EndShift

  datatype Activation = Activation(signals: seq<Signal>, done: bool, history: nat)

  /** What one run hands the next. */
  datatype State = State(courierId: string, region: string, assignments: nat, pings: nat, vehicleType: string)

  datatype Command =
    | AcceptAssignment(orderId: string)
    | ReportAvailable(target: string, courierId: string, region: string)
    | ContinueAsNew(carry: State)
    | EndWorkflow(courierId: string, count: nat)

  datatype Core = Core(
    courierId: string,
    region: string,
    vehicleType: string,
    assignments: seq<string>,
    pings: nat,
    count: nat,
    end: bool,
    history: nat,
    out: seq<Command>)

  datatype Point = Wait | Accept(orderId: string) | Report(orderId: string) | Ended

  datatype Machine = Machine(core: Core, at: Point)

  function Handle(c: Core, s: Signal): Core {
    match s
    case LocationPing => c.(pings := c.pings + 1)
    case Assignment(orderId) => c.(assignments := c.assignments + [orderId])
    case EndShift => c.(end := true)
  }

  function Deliver(c: Core, batch: seq<Signal>): Core
    decreases |batch|
  {
    if batch == [] then c else Deliver(Handle(c, batch[0]), batch[1..])
  }

  function Emit(c: Core, command: Command): Core {
    c.(out := c.out + [command])
  }

  function Carry(c: Core): State {
    State(c.courierId, c.region, c.count, c.pings, c.vehicleType)
  }

  function Prologue(state: State, out: seq<Command>): Core {
    Core(state.courierId, state.region, state.vehicleType, [], state.pings, state.assignments, false,
         RUN_START_HISTORY, out)
  }

  function NewRun(c: Core): Core {
    Prologue(Carry(c), c.out + [ContinueAsNew(Carry(c))])
  }

  predicate Wakes(c: Core) {
    c.end || c.assignments != [] || c.history > MAX_HISTORY
  }

  function Take(c: Core): Machine
    requires c.assignments != []
  {
    var orderId := c.assignments[0];
    Machine(Emit(c.(assignments := c.assignments[1..]), AcceptAssignment(orderId)), Accept(orderId))
  }

  /** From the inner loop's test to the next await. The end flag is only looked
      at again if the run goes on. */
  function Drain(c: Core): Machine {
    if c.assignments != [] then Take(c)
    else if c.history > MAX_HISTORY then Machine(NewRun(c), Wait)
    else if c.end then Finish(c)
    else Machine(c, Wait)
  }

  function Finish(c: Core): Machine {
    Machine(Emit(c, EndWorkflow(c.courierId, c.count)), Ended)
  }

  /** From the top of the main loop to the next await. */
  function LoopTop(c: Core): Machine {
    if !Wakes(c) then Machine(c, Wait)
    else if c.end then Finish(c)
    else Drain(c)
  }

  function Begin(state: State): Machine {
    LoopTop(Prologue(state, []))
  }

  function Resume(c: Core, at: Point): Machine
    requires at.Accept? || at.Report?
  {
    match at
    case Accept(orderId) =>
      Machine(Emit(c.(count := c.count + 1), ReportAvailable(DispatchId(c.region), c.courierId, c.region)),
              Report(orderId))
    case Report(_) => Drain(c)
  }

  function Step(m: Machine, a: Activation): Machine {
    if m.at.Ended? then m
    else
      var c := Deliver(m.core.(history := a.history), a.signals);
      if m.at.Wait? then LoopTop(c)
      else if a.done then Resume(c, m.at)
      else Machine(c, m.at)
  }

  function Run(m: Machine, es: seq<Activation>): Machine
    decreases |es|
  {
    if es == [] then m else Run(Step(m, es[0]), es[1..])
  }

  function FreshState(courierId: string, region: string, vehicleType: string): State {
    State(courierId, region, 0, 0, vehicleType)
  }

  function Reached(courierId: string, region: string, vehicleType: string, es: seq<Activation>): Machine {
    Run(Begin(FreshState(courierId, region, vehicleType)), es)
  }

  /** After the inner loop, a run that goes on is at its loop top again. */
  lemma DrainEndsAtLoopTop(c: Core)
    requires c.assignments == [] && c.history <= MAX_HISTORY
    ensures Drain(c) == LoopTop(c)
  {
  }

  lemma NewRunIsLoopTop(c: Core)
    ensures Machine(NewRun(c), Wait) == LoopTop(NewRun(c))
  {
  }

  /** An ended shift hears nothing more. */
  lemma {:induction false} EndedStays(m: Machine, es: seq<Activation>)
    requires m.at.Ended?
    ensures Run(m, es) == m
    decreases |es|
  {
    if es == [] {
    } else {
      EndedStays(m, es[1..]);
    }
  }
}
