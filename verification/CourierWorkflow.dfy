/** The courier shift object and its nested loops, proved against the machine. */
module CourierEntity {
  import opened Names
  import opened CourierModel

  datatype Exit = Suspended | Completed | ContinuedAsNew(carry: State)

  class CourierShiftWorkflow {
    var courierId: string
    var region: string
    var vehicleType: string
    var assignments: seq<string>
    var pings: nat
    var count: nat
    var end: bool

    var history: nat
    var inbox: seq<Activation>
    var out: seq<Command>

    function View(): Core
      reads this
    {
      Core(courierId, region, vehicleType, assignments, pings, count, end, history, out)
    }

    constructor (inbox: seq<Activation>, out: seq<Command>)
      ensures this.inbox == inbox
      ensures View() == Core("", "", "bike", [], 0, 0, false, RUN_START_HISTORY, out)
    {
      courierId, region, vehicleType, assignments := "", "", "bike", [];
      pings, count, end := 0, 0, false;
      history, this.inbox, this.out := RUN_START_HISTORY, inbox, out;
    }

    method LocationPing()
      modifies this
      ensures View() == old(View()).(pings := old(pings) + 1) && inbox == old(inbox)
    {
      pings := pings + 1;
    }

    method Assignment(orderId: string)
      modifies this
      ensures View() == old(View()).(assignments := old(assignments) + [orderId]) && inbox == old(inbox)
    {
      assignments := assignments + [orderId];
    }

    method EndShift()
      modifies this
      ensures View() == old(View()).(end := true) && inbox == old(inbox)
    {
      end := true;
    }

    method Receive(a: Activation)
      modifies this
      ensures View() == Deliver(old(View()).(history := a.history), a.signals)
      ensures inbox == old(inbox)
    {
      history := a.history;
      ghost var whole := Deliver(View(), a.signals);
      var i := 0;
      while i < |a.signals|
        invariant 0 <= i <= |a.signals|
        invariant Deliver(View(), a.signals[i..]) == whole
        invariant inbox == old(inbox)
      {
        match a.signals[i] {
          case LocationPing => this.LocationPing();
          case Assignment(orderId) => this.Assignment(orderId);
          case EndShift => this.EndShift();
        }
        assert a.signals[i..][1..] == a.signals[i + 1..];
        i := i + 1;
      }
    }

    method Await(ghost at: Point, ghost goal: Machine) returns (resumed: bool)
      requires at.Accept? || at.Report?
      requires goal == Run(Machine(View(), at), inbox)
      modifies this
      ensures |inbox| <= |old(inbox)|
      ensures resumed ==> |inbox| < |old(inbox)| && goal == Run(Resume(View(), at), inbox)
      ensures !resumed ==> inbox == [] && goal == Machine(View(), at)
    {
      while inbox != []
        invariant |inbox| <= |old(inbox)|
        invariant goal == Run(Machine(View(), at), inbox)
        decreases |inbox|
      {
        var a := inbox[0];
        inbox := inbox[1..];
        Receive(a);
        if a.done {
          return true;
        }
      }
      return false;
    }

    predicate WaitPredicate()
      reads this
      ensures WaitPredicate() == Wakes(View())
    {
      end || |assignments| > 0 || history > MAX_HISTORY
    }

    method WaitCondition(ghost goal: Machine) returns (resumed: bool)
      requires goal == Run(LoopTop(View()), inbox)
      modifies this
      ensures |inbox| <= |old(inbox)|
      ensures resumed ==> Wakes(View()) && goal == Run(LoopTop(View()), inbox)
      ensures resumed && |inbox| == |old(inbox)| ==> View() == old(View())
      ensures !resumed ==> inbox == [] && goal == Machine(View(), Wait)
    {
      if WaitPredicate() {
        return true;
      }
      while inbox != []
        invariant |inbox| <= |old(inbox)|
        invariant goal == Run(Machine(View(), Wait), inbox)
        decreases |inbox|
      {
        var a := inbox[0];
        inbox := inbox[1..];
        Receive(a);
        if WaitPredicate() {
          return true;
        }
      }
      return false;
    }

    /** One turn of the inner loop: accept the oldest assignment and report. */
    method AcceptNext(ghost goal: Machine) returns (alive: bool)
      requires assignments != []
      requires goal == Run(Drain(View()), inbox)
      modifies this
      ensures |inbox| <= |old(inbox)|
      ensures alive ==> |inbox| < |old(inbox)| && goal == Run(Drain(View()), inbox)
      ensures !alive ==> inbox == [] && goal.core == View()
    {
      var orderId := assignments[0];
      assignments := assignments[1..];
      out := out + [AcceptAssignment(orderId)];
      alive := Await(Accept(orderId), goal);
      if !alive {
        return;
      }
      count := count + 1;
      out := out + [ReportAvailable(DispatchId(region), courierId, region)];
      alive := Await(Report(orderId), goal);
    }

    method AcceptAll(ghost goal: Machine) returns (alive: bool)
      requires goal == Run(Drain(View()), inbox)
      modifies this
      ensures |inbox| <= |old(inbox)|
      ensures alive ==> assignments == [] && goal == Run(Drain(View()), inbox)
      ensures alive && |inbox| == |old(inbox)| ==> View() == old(View())
      ensures !alive ==> inbox == [] && goal.core == View()
    {
      while |assignments| > 0
        invariant |inbox| <= |old(inbox)|
        invariant goal == Run(Drain(View()), inbox)
        invariant |inbox| == |old(inbox)| ==> View() == old(View())
        decreases |inbox|
      {
        alive := AcceptNext(goal);
        if !alive {
          return;
        }
      }
      return true;
    }

    /** One run, until the shift ends, continues as new or waits for good. */
    method Execute(state: State, ghost goal: Machine) returns (exit: Exit)
      requires goal == Run(LoopTop(Prologue(state, out)), inbox)
      requires assignments == [] && !end && history == RUN_START_HISTORY
      modifies this
      ensures exit.Suspended? ==> inbox == [] && goal.core == View()
      ensures exit.Completed? ==> goal == Machine(View(), Ended)
      ensures exit.ContinuedAsNew? ==>
                && |inbox| < |old(inbox)|
                && goal == Run(LoopTop(Prologue(exit.carry, out)), inbox)
    {
      courierId := state.courierId;
      region := state.region;
      vehicleType := state.vehicleType;
      count := state.assignments;
      pings := state.pings;
      while true
        invariant |inbox| <= |old(inbox)|
        invariant goal == Run(LoopTop(View()), inbox)
        invariant |inbox| == |old(inbox)| ==> !Wakes(View())
        decreases |inbox|
      {
        var alive := WaitCondition(goal);
        if !alive {
          return Suspended;
        }
        if end {
          out := out + [EndWorkflow(courierId, count)];
          EndedStays(Machine(View(), Ended), inbox);
          return Completed;
        }
        alive := AcceptAll(goal);
        if !alive {
          return Suspended;
        }
        ghost var before := View();
        if history > MAX_HISTORY {
          var carry := State(courierId, region, count, pings, vehicleType);
          out := out + [ContinueAsNew(carry)];
          NewRunIsLoopTop(before);
          return ContinuedAsNew(carry);
        }
        DrainEndsAtLoopTop(before);
      }
    }
  }

  /** The server: hosts run after run until the shift is over or parked. */
  method Host(courierId: string, region: string, vehicleType: string, deliveries: seq<Activation>)
    returns (wf: CourierShiftWorkflow)
    ensures wf.View() == Reached(courierId, region, vehicleType, deliveries).core
  {
    ghost var goal := Reached(courierId, region, vehicleType, deliveries);
    var state := FreshState(courierId, region, vehicleType);
    var inbox, out := deliveries, [];
    while true
      invariant goal == Run(LoopTop(Prologue(state, out)), inbox)
      decreases |inbox|
    {
      wf := new CourierShiftWorkflow(inbox, out);
      var exit := wf.Execute(state, goal);
      match exit {
        case ContinuedAsNew(carry) =>
          state, inbox, out := carry, wf.inbox, wf.out;
        case _ => return;
      }
    }
  }
}
