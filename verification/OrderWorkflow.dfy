/**
 The order workflow object and its sequential saga, proved against the machine:
 `goal` is where the machine ends on the whole inbox, and the rest of the
 machine's run from each await still leads there.
 */
module OrderEntity {
  import opened Names
  import opened Wrappers
  import opened OrderModel

  datatype Flow = Onward | Stop

  class OrderWorkflow {
    var courierId: Option<string>
    var trackStages: bool

    const inp: Input
    var inbox: seq<Activation>
    var now: nat
    var since: nat
    var out: seq<Command>
    var heard: seq<string>
    var fellBack: bool
    var heardAtPickup: nat
    var heardAtSettlement: nat
    var status: Status

    function View(): Core
      reads this
    {
      Core(inp, courierId, trackStages, now, since, out, heard, fellBack, heardAtPickup, heardAtSettlement)
    }

    constructor (inp: Input, inbox: seq<Activation>)
      ensures this.inp == inp && this.inbox == inbox && status == Running
      ensures View() == Core(inp, None, true, 0, 0, [], [], false, 0, 0)
    {
      this.inp, this.inbox := inp, inbox;
      courierId, trackStages := None, true;
      now, since, out, heard, fellBack := 0, 0, [], [], false;
      heardAtPickup, heardAtSettlement, status := 0, 0, Running;
    }

    method CourierAssigned(courier: string)
      modifies this
      ensures View() == old(View()).(courier := Some(courier), heard := old(heard) + [courier])
      ensures inbox == old(inbox) && status == old(status)
    {
      courierId := Some(courier);
      heard := heard + [courier];
    }

    method Receive(answers: seq<string>)
      modifies this
      ensures View() == Hear(old(View()), answers)
      ensures inbox == old(inbox) && status == old(status)
    {
      ghost var before := View();
      var i := 0;
      while i < |answers|
        invariant 0 <= i <= |answers|
        invariant View() == Hear(before, answers[..i])
        invariant inbox == old(inbox) && status == old(status)
      {
        CourierAssigned(answers[i]);
        i := i + 1;
        assert answers[..i] == answers[..i - 1] + [answers[i - 1]];
        assert before.heard + answers[..i] == before.heard + answers[..i - 1] + [answers[i - 1]];
      }
      assert answers[..|answers|] == answers;
    }

    /** `_stage`: one batched upsert, or none. */
    method UpdateStage(stage: Stage, promised: Option<nat>, courier: Option<string>)
      modifies this
      ensures View() == EmitStage(old(View()), stage, promised, courier)
      ensures inbox == old(inbox) && status == old(status)
    {
      if !trackStages {
        return;
      }
      out := out + [UpsertStage(stage, promised, courier)];
    }

    /** One activation at an await: `waiting` if the await goes on. */
    method Wake(at: Point, a: Activation) returns (waiting: bool, flow: Flow)
      requires status == Running
      modifies this
      ensures inbox == old(inbox)
      ensures waiting ==>
                status == Running && Step(old(Machine(View(), at, Running)), a) == Machine(View(), at, Running)
      ensures !waiting && flow.Onward? ==>
                status == Running && Step(old(Machine(View(), at, Running)), a) == Resume(View(), at)
      ensures !waiting && flow.Stop? ==>
                status != Running && Step(old(Machine(View(), at, Running)), a) == Machine(View(), at, status)
    {
      if now < a.now {
        now := a.now;
      }
      if inp.forceTimeout && now >= FORCED_TIMEOUT {
        status := TimedOut;
        return false, Stop;
      }
      Receive(a.answers);
      if Over(View(), at, a.wake) {
        return false, Onward;
      }
      if Fails(View(), at, a.wake) {
        status := Failed;
        return false, Stop;
      }
      return true, Stop;
    }

    /** Awaits a timer, an activity, a signal call, a child start or, at the
        courier wait, an answer with a timeout. */
    method Await(at: Point, ghost goal: Machine) returns (flow: Flow)
      requires status == Running
      requires goal == Run(Enter(View(), at), inbox)
      modifies this
      ensures flow.Onward? ==> status == Running && goal == Run(Resume(View(), at), inbox)
      ensures flow.Stop? ==> goal == Machine(View(), at, status)
    {
      since := now;
      var waiting := true;
      while inbox != []
        invariant status == Running
        invariant goal == Run(Machine(View(), at, Running), inbox)
        decreases |inbox|
      {
        var a := inbox[0];
        inbox := inbox[1..];
        waiting, flow := Wake(at, a);
        if !waiting {
          if flow.Stop? {
            ClosedStays(Machine(View(), at, status), inbox);
          }
          return;
        }
      }
      return Stop;
    }

    /** Steps 1 and 2: validate the order and authorize its payment. */
    method Accept(ghost goal: Machine) returns (flow: Flow, ghost at: Point)
      requires status == Running
      requires goal == Run(Enter(View(), if inp.forceTimeout then ForcedSleep else Validate), inbox)
      modifies this
      ensures flow.Onward? ==> status == Running && goal == Run(Enter(View(), Send), inbox)
      ensures flow.Stop? ==> goal == Machine(View(), at, status)
    {
      at := ForcedSleep;
      if inp.forceTimeout {
        flow := Await(ForcedSleep, goal);
        if flow.Stop? { return; }
      }
      at := Validate;
      flow := Await(Validate, goal);
      if flow.Stop? { return; }
      at := Authorize;
      flow := Await(Authorize, goal);
    }

    /** Steps 3 to 5: the restaurant takes the order and cooks it. */
    method Cook(ghost goal: Machine) returns (flow: Flow, ghost at: Point)
      requires status == Running
      requires goal == Run(Enter(View(), Send), inbox)
      modifies this
      ensures flow.Onward? ==> status == Running && goal == Run(Resume(View(), PrepSleep), inbox)
      ensures flow.Stop? ==> goal == Machine(View(), at, status)
    {
      at := Send;
      flow := Await(Send, goal);
      if flow.Stop? { return; }
      at := AcceptSleep;
      flow := Await(AcceptSleep, goal);
      if flow.Stop? { return; }
      at := Poll;
      flow := Await(Poll, goal);
      if flow.Stop? { return; }
      UpdateStage(Preparing, Some(now + PROMISE), None);
      at := PrepSleep;
      flow := Await(PrepSleep, goal);
    }

    /** Step 6: ask the region for a courier. */
    method AskForCourier(ghost goal: Machine) returns (flow: Flow)
      requires status == Running
      requires goal == Run(Resume(View(), PrepSleep), inbox)
      modifies this
      ensures flow.Onward? ==> status == Running && goal == Run(Resume(View(), Ready), inbox)
      ensures flow.Stop? ==> goal == Machine(View(), Ready, status)
    {
      out := out + [RequestDispatch(DispatchId(inp.region), inp.orderId, OrderWorkflowId(inp.orderId), inp.region)];
      flow := Await(Ready, goal);
    }

    /** Step 7: wait for the answer, or make a courier up. */
    method FindCourier(ghost goal: Machine) returns (flow: Flow)
      requires status == Running
      requires goal == Run(Resume(View(), Ready), inbox)
      modifies this
      ensures flow.Onward? ==> status == Running && goal == Run(Enter(View(), PickUp), inbox)
      ensures flow.Stop? ==> goal == Machine(View(), AwaitCourier, status)
    {
      UpdateStage(AwaitingCourier, None, None);
      if courierId.Some? {
        return Onward;
      }
      flow := Await(AwaitCourier, goal);
      if flow.Onward? && courierId.None? {
        courierId := Some(FallbackCourier(inp.orderId));
        fellBack := true;
      }
    }

    /** Step 8: pick up. */
    method PickUpOrder(ghost goal: Machine) returns (flow: Flow)
      requires status == Running
      requires goal == Run(Enter(View(), PickUp), inbox)
      modifies this
      ensures flow.Onward? ==> status == Running && goal == Run(Enter(View(), Transit), inbox)
      ensures flow.Stop? ==> goal == Machine(View(), PickUp, status)
    {
      flow := Await(PickUp, goal);
      if flow.Stop? { return; }
      UpdateStage(InTransit, None, Some(OrUnknown(courierId)));
      heardAtPickup := |heard|;
    }

    /** Steps 8 and 9: pick up and drive. */
    method Drive(ghost goal: Machine) returns (flow: Flow, ghost at: Point)
      requires status == Running
      requires goal == Run(Enter(View(), PickUp), inbox)
      modifies this
      ensures flow.Onward? ==> status == Running && goal == Run(Enter(View(), DeliverOrder), inbox)
      ensures flow.Stop? ==> goal == Machine(View(), at, status)
    {
      at := PickUp;
      flow := PickUpOrder(goal);
      if flow.Stop? { return; }
      at := Transit;
      flow := Await(Transit, goal);
    }

    /** Step 10: deliver and hand over to settlement. */
    method HandOver(ghost goal: Machine) returns (flow: Flow, ghost at: Point)
      requires status == Running
      requires goal == Run(Enter(View(), DeliverOrder), inbox)
      modifies this
      ensures flow.Onward? ==> status == Running && goal == Run(Resume(View(), Settle), inbox)
      ensures flow.Stop? ==> goal == Machine(View(), at, status)
    {
      at := DeliverOrder;
      flow := Await(DeliverOrder, goal);
      if flow.Stop? { return; }
      out := out + [StartSettlement(SettlementId(inp.orderId), inp.orderId, inp.region, inp.restaurantId,
                                    OrUnknown(courierId))];
      heardAtSettlement := |heard|;
      at := Settle;
      flow := Await(Settle, goal);
    }

    /** Steps 1 to 6. */
    method Prepare(ghost goal: Machine) returns (flow: Flow, ghost at: Point)
      requires status == Running
      requires goal == Run(Enter(View(), if inp.forceTimeout then ForcedSleep else Validate), inbox)
      modifies this
      ensures flow.Onward? ==> status == Running && goal == Run(Resume(View(), Ready), inbox)
      ensures flow.Stop? ==> goal == Machine(View(), at, status)
    {
      flow, at := Accept(goal);
      if flow.Stop? { return; }
      flow, at := Cook(goal);
      if flow.Stop? { return; }
      at := Ready;
      flow := AskForCourier(goal);
    }

    /** Steps 7 to 10. */
    method Fulfil(ghost goal: Machine) returns (flow: Flow, ghost at: Point)
      requires status == Running
      requires goal == Run(Resume(View(), Ready), inbox)
      modifies this
      ensures flow.Onward? ==> status == Running && goal == Run(Resume(View(), Settle), inbox)
      ensures flow.Stop? ==> goal == Machine(View(), at, status)
    {
      at := AwaitCourier;
      flow := FindCourier(goal);
      if flow.Stop? { return; }
      flow, at := Drive(goal);
      if flow.Stop? { return; }
      flow, at := HandOver(goal);
    }

    /** The return: the order is closed and hears nothing more. */
    method Close(ghost goal: Machine)
      requires status == Running
      requires goal == Run(Resume(View(), Settle), inbox)
      modifies this
      ensures goal == Machine(View(), Settle, status)
    {
      status := Delivered;
      ClosedStays(Machine(View(), Settle, status), inbox);
    }

    method Serve(ghost goal: Machine) returns (ghost at: Point)
      requires status == Running
      requires goal == Run(Enter(View(), if inp.forceTimeout then ForcedSleep else Validate), inbox)
      modifies this
      ensures goal == Machine(View(), at, status)
    {
      var flow;
      flow, at := Prepare(goal);
      if flow.Stop? { return; }
      flow, at := Fulfil(goal);
      if flow.Stop? { return; }
      at := Settle;
      Close(goal);
    }

    /** The whole saga refines the machine. */
    method Execute() returns (ghost at: Point)
      requires status == Running && View() == Core(inp, None, true, 0, 0, [], [], false, 0, 0)
      modifies this
      ensures Machine(View(), at, status) == Reached(inp, old(inbox))
    {
      ghost var goal := Reached(inp, inbox);
      trackStages := inp.trackStages;
      at := Serve(goal);
    }
  }
}
