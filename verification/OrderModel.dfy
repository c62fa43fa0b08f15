/**
 The order saga as a state machine over its await points, with a clock counting
 seconds since the order started. Answers from dispatch are handled before the
 coroutine resumes, so an answer that arrives with the timeout wins.
 */
module OrderModel {
  import opened Names
  import opened Wrappers

  const PROMISE: nat := 35 * 60
  const FORCED_TIMEOUT: nat := 10
  const COURIER_TIMEOUT: nat := 30

  datatype Input = Input(
    orderId: string,
    region: string,
    restaurantId: string,
    failAtRestaurant: bool,
    slowValidate: bool,
    forceTimeout: bool,
    trackStages: bool)

  datatype Stage = Preparing | AwaitingCourier | InTransit

  datatype Command =
    | UpsertStage(stage: Stage, promised: Option<nat>, carrier: Option<string>)
    | RequestDispatch(target: string, orderId: string, workflowId: string, region: string)
    | StartSettlement(id: string, orderId: string, region: string, restaurantId: string, courier: string)

  /** What the saga awaits, in order. */
  datatype Point =
    | ForcedSleep
    | Validate
    | Authorize
    | Send
    | AcceptSleep
    | Poll
    | PrepSleep
    | Ready
    | AwaitCourier
    | PickUp
    | Transit
    | DeliverOrder
    | Settle

  datatype Status = Running | Delivered | Failed | TimedOut

  /** One try of an activity: time spent queued, then time spent running. */
  datatype Attempt = Attempt(queued: nat, ran: nat)

  /** `attempts` is the account of an activity's tries; other awaits have none. */
  datatype Wake = Nothing | Done(attempts: seq<Attempt>) | Broken

  datatype Activation = Activation(answers: seq<string>, wake: Wake, now: nat)

  /** The fields of the workflow object, the clock, the commands issued, and
      three observations: every answer heard, how many had been heard when the
      order was picked up and when it was settled. */
  datatype Core = Core(
    inp: Input,
    courier: Option<string>,
    trackStages: bool,
    now: nat,
    since: nat,
    out: seq<Command>,
    heard: seq<string>,
    fellBack: bool,
    heardAtPickup: nat,
    heardAtSettlement: nat)

  datatype Machine = Machine(core: Core, at: Point, status: Status)

  function TimerOf(at: Point): Option<nat> {
    match at
    case ForcedSleep => Some(30)
    case AcceptSleep => Some(10)
    case PrepSleep => Some(70)
    case AwaitCourier => Some(COURIER_TIMEOUT)
    case Transit => Some(60)
    case _ => None
  }

  predicate IsActivity(at: Point) {
    at in {Validate, Authorize, Send, Poll, PickUp, DeliverOrder}
  }

  /** A slow validation outlives its start-to-close timeout on every attempt,
      and an injected restaurant failure is not retried. */
  predicate Doomed(inp: Input, at: Point) {
    (at.Validate? && inp.slowValidate) || (at.Send? && inp.failAtRestaurant)
  }

  function OrUnknown(courier: Option<string>): string {
    match courier
    case Some(name) => if name == "" then "unknown" else name
    case None => "unknown"
  }

  function Emit(c: Core, command: Command): Core {
    c.(out := c.out + [command])
  }

  function EmitStage(c: Core, stage: Stage, promised: Option<nat>, courier: Option<string>): Core {
    if c.trackStages then Emit(c, UpsertStage(stage, promised, courier)) else c
  }

  function Hear(c: Core, answers: seq<string>): Core {
    if answers == [] then c
    else c.(courier := Some(answers[|answers| - 1]), heard := c.heard + answers)
  }

  function Enter(c: Core, at: Point): Machine {
    Machine(c.(since := c.now), at, Running)
  }

  function Begin(inp: Input): Machine {
    Enter(Core(inp, None, inp.trackStages, 0, 0, [], [], false, 0, 0),
          if inp.forceTimeout then ForcedSleep else Validate)
  }

  /** The awaited thing is over; run on to the next await. */
  function Resume(c: Core, at: Point): Machine {
    match at
    case ForcedSleep => Enter(c, Validate)
    case Validate => Enter(c, Authorize)
    case Authorize => Enter(c, Send)
    case Send => Enter(c, AcceptSleep)
    case AcceptSleep => Enter(c, Poll)
    case Poll => Enter(EmitStage(c, Preparing, Some(c.now + PROMISE), None), PrepSleep)
    case PrepSleep =>
      Enter(Emit(c, RequestDispatch(DispatchId(c.inp.region), c.inp.orderId,
                                    OrderWorkflowId(c.inp.orderId), c.inp.region)), Ready)
    case Ready =>
      var told := EmitStage(c, AwaitingCourier, None, None);
      Enter(told, if told.courier.Some? then PickUp else AwaitCourier)
    case AwaitCourier =>
      Enter(if c.courier.Some? then c
            else c.(courier := Some(FallbackCourier(c.inp.orderId)), fellBack := true), PickUp)
    case PickUp =>
      Enter(EmitStage(c, InTransit, None, Some(OrUnknown(c.courier))).(heardAtPickup := |c.heard|), Transit)
    case Transit => Enter(c, DeliverOrder)
    case DeliverOrder =>
      Enter(Emit(c, StartSettlement(SettlementId(c.inp.orderId), c.inp.orderId, c.inp.region,
                                    c.inp.restaurantId, OrUnknown(c.courier))).(heardAtSettlement := |c.heard|),
            Settle)
    case Settle => Machine(c, Settle, Delivered)
  }

  predicate Expired(c: Core) {
    c.inp.forceTimeout && c.now >= FORCED_TIMEOUT
  }

  /** Whether the await is over: a timer that has run its time, an answered or
      timed-out courier wait, a call that returned. A failed signal is swallowed. */
  predicate Over(c: Core, at: Point, wake: Wake) {
    || (at.AwaitCourier? && c.courier.Some?)
    || (at.Ready? && wake.Broken?)
    || (wake.Done? && !Doomed(c.inp, at) && (TimerOf(at).Some? ==> c.now >= c.since + TimerOf(at).value))
  }

  predicate Fails(c: Core, at: Point, wake: Wake) {
    && (IsActivity(at) || at.Settle?)
    && (wake.Broken? || (wake.Done? && Doomed(c.inp, at)))
  }

  function Step(m: Machine, a: Activation): Machine {
    if !m.status.Running? then m
    else
      var c0 := m.core.(now := if a.now < m.core.now then m.core.now else a.now);
      if Expired(c0) then Machine(c0, m.at, TimedOut)
      else
        var c := Hear(c0, a.answers);
        if Over(c, m.at, a.wake) then Resume(c, m.at)
        else if Fails(c, m.at, a.wake) then Machine(c, m.at, Failed)
        else Machine(c, m.at, Running)
  }

  function Run(m: Machine, es: seq<Activation>): Machine
    decreases |es|
  {
    if es == [] then m else Run(Step(m, es[0]), es[1..])
  }

  function Reached(inp: Input, es: seq<Activation>): Machine {
    Run(Begin(inp), es)
  }

  /** A closed order hears nothing more. */
  lemma {:induction false} ClosedStays(m: Machine, es: seq<Activation>)
    requires !m.status.Running?
    ensures Run(m, es) == m
    decreases |es|
  {
    if es == [] {
    } else {
      ClosedStays(m, es[1..]);
    }
  }
}
