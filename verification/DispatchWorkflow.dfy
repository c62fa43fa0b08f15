/**
 The dispatch workflow object, with the loops of its source. Awaiting draws the
 next activations from the run's inbox; when the inbox is used up the coroutine
 stays suspended. Each method is proved against the machine: `goal` is where the
 machine ends on the whole inbox, and at every point of the code the rest of the
 machine's run from here still leads there.
 */
module DispatchEntity {
  import opened DispatchModel

  datatype Exit = Suspended | ContinuedAsNew(carry: State)

  datatype Turn = Stopped | Again | Recycling(carry: State)

  class DispatchWorkflow {
    var region: string
    var pending: seq<Order>
    var couriers: seq<string>
    var processed: nat
    var degradation: Degradation
    var sequence: nat
    var published: Status

    var history: nat
    var inbox: seq<Activation>
    var out: seq<Command>

    function View(): Core
      reads this
    {
      Core(region, pending, couriers, processed, degradation, sequence, published, history, out)
    }

    constructor (inbox: seq<Activation>, out: seq<Command>)
      ensures this.inbox == inbox && this.out == out
      ensures View() == Core("", [], [], 0, NO_DEGRADATION, 0, Healthy, RUN_START_HISTORY, out)
    {
      region, pending, couriers, processed := "", [], [], 0;
      degradation, sequence, published := NO_DEGRADATION, 0, Healthy;
      history, this.inbox, this.out := RUN_START_HISTORY, inbox, out;
    }

    method OrderReady(order: Order)
      modifies this
      ensures View() == old(View()).(pending := old(pending) + [order]) && inbox == old(inbox)
    {
      pending := pending + [order];
    }

    method CourierAvailable(courier: string)
      modifies this
      ensures View() == old(View()).(couriers := old(couriers) + [courier]) && inbox == old(inbox)
    {
      couriers := couriers + [courier];
    }

    method SetDegradation(d: Degradation)
      modifies this
      ensures View() == old(View()).(degradation := d) && inbox == old(inbox)
    {
      degradation := d;
    }

    /** One activation's signals, in order, at an await. */
    method Receive(a: Activation)
      modifies this
      ensures View() == Deliver(old(View()).(history := a.history), a.signals)
      ensures inbox == old(inbox)
    {
      history := a.history;
      ghost var whole := Deliver(View(), a.signals);
      var i := 0;
      while i < |a.signals|
        invariant 0 <= i <= |a.signals|
        invariant Deliver(View(), a.signals[i..]) == whole
        invariant inbox == old(inbox)
      {
        match a.signals[i] {
          case OrderReady(order) => this.OrderReady(order);
          case CourierAvailable(courier) => this.CourierAvailable(courier);
          case SetDegradation(d) => this.SetDegradation(d);
        }
        assert a.signals[i..][1..] == a.signals[i + 1..];
        i := i + 1;
      }
    }

    /** Awaits an activity, a timer or an external signal call. */
    method Await(ghost at: Point, ghost goal: Machine) returns (resumed: bool)
      requires !at.Wait?
      requires goal == Run(Thresholds, Machine(View(), at), inbox)
      modifies this
      ensures |inbox| <= |old(inbox)|
      ensures resumed ==> |inbox| < |old(inbox)|
      ensures resumed ==> goal == Run(Thresholds, Resume(Thresholds, View(), at), inbox)
      ensures !resumed ==> inbox == [] && goal == Machine(View(), at)
    {
      while inbox != []
        invariant |inbox| <= |old(inbox)|
        invariant goal == Run(Thresholds, Machine(View(), at), inbox)
        decreases |inbox|
      {
        var a := inbox[0];
        inbox := inbox[1..];
        Receive(a);
        if a.done {
          return true;
        }
      }
      return false;
    }

    predicate WaitPredicate()
      reads this
      ensures WaitPredicate() == Wakes(Thresholds, View())
    {
      || |pending| > 0
      || degradation.inflateHistory
      || degradation.Status() != published
      || (!degradation.suspendCan && history > MAX_HISTORY)
    }

    /** Evaluated before yielding and again after each batch of signals. */
    method WaitCondition(ghost goal: Machine) returns (resumed: bool)
      requires !degradation.inflateHistory
      requires goal == Run(Thresholds, LoopTop(Thresholds, View()), inbox)
      modifies this
      ensures |inbox| <= |old(inbox)|
      ensures resumed ==> goal == Run(Thresholds, Drain(Thresholds, Publish(View())), inbox)
      ensures resumed && |inbox| == |old(inbox)| ==> View() == old(View()) && Wakes(Thresholds, View())
      ensures !resumed ==> inbox == [] && goal == Machine(View(), Wait)
    {
      if WaitPredicate() {
        return true;
      }
      while inbox != []
        invariant |inbox| <= |old(inbox)|
        invariant goal == Run(Thresholds, Machine(View(), Wait), inbox)
        decreases |inbox|
      {
        var a := inbox[0];
        inbox := inbox[1..];
        Receive(a);
        if WaitPredicate() {
          return true;
        }
      }
      return false;
    }

    method PublishStatus()
      modifies this
      ensures View() == Publish(old(View())) && inbox == old(inbox)
    {
      var status := degradation.Status();
      if status == published {
        return;
      }
      out := out + [UpsertStatus(status, |pending|)];
      published := status;
    }

    /** Pops the oldest order and the longest-waiting courier, if there is one, and
        asks for the assignment. */
    method AssignNext() returns (order: Order, pick: Pick)
      requires pending != []
      modifies this
      ensures inbox == old(inbox)
      ensures Machine(View(), Assign(order, pick)) == Take(old(View()))
    {
      order := pending[0];
      pending := pending[1..];
      pick := Synthetic(region, processed);
      if |couriers| > 0 {
        pick := Real(couriers[0]);
        couriers := couriers[1..];
      }
      out := out + [AssignCourier(order, pick)];
    }

    /** Tells the order its courier and counts it. */
    method Answer(order: Order, pick: Pick, ghost goal: Machine) returns (alive: bool)
      requires goal == Run(Thresholds, Resume(Thresholds, View(), Assign(order, pick)), inbox)
      modifies this
      ensures |inbox| <= |old(inbox)|
      ensures alive ==> goal == Run(Thresholds, Drain(Thresholds, View()), inbox)
      ensures !alive ==> inbox == [] && goal.core == View()
    {
      out := out + [SignalOrder(order.workflowId, pick.Name())];
      alive := Await(Notify(order, pick), goal);
      if alive {
        processed := processed + 1;
      }
    }

    /** One turn of the drain: assign the oldest order and tell it. */
    method ServeNext(ghost goal: Machine) returns (alive: bool)
      requires pending != []
      requires goal == Run(Thresholds, Drain(Thresholds, View()), inbox)
      modifies this
      ensures |inbox| <= |old(inbox)|
      ensures alive ==> |inbox| < |old(inbox)| && goal == Run(Thresholds, Drain(Thresholds, View()), inbox)
      ensures !alive ==> inbox == [] && goal.core == View()
    {
      var order, pick := AssignNext();
      alive := Await(Assign(order, pick), goal);
      if alive {
        alive := Answer(order, pick, goal);
      }
    }

    method DrainPending(ghost goal: Machine) returns (alive: bool)
      requires goal == Run(Thresholds, Drain(Thresholds, View()), inbox)
      modifies this
      ensures |inbox| <= |old(inbox)|
      ensures alive ==> pending == [] && goal == Run(Thresholds, Drain(Thresholds, View()), inbox)
      ensures alive && |inbox| == |old(inbox)| ==> View() == old(View())
      ensures !alive ==> inbox == [] && goal.core == View()
    {
      while |pending| > 0
        invariant |inbox| <= |old(inbox)|
        invariant goal == Run(Thresholds, Drain(Thresholds, View()), inbox)
        invariant |inbox| == |old(inbox)| ==> View() == old(View())
        decreases |inbox|
      {
        alive := ServeNext(goal);
        if !alive {
          return;
        }
      }
      return true;
    }

    /** The inflating branch of one iteration. */
    method InflateHistory(ghost goal: Machine) returns (alive: bool)
      requires degradation.inflateHistory
      requires goal == Run(Thresholds, LoopTop(Thresholds, View()), inbox)
      modifies this
      ensures |inbox| <= |old(inbox)|
      ensures alive ==> |inbox| < |old(inbox)|
      ensures alive ==> goal == Run(Thresholds, Drain(Thresholds, Publish(View())), inbox)
      ensures !alive ==> inbox == [] && goal.core == View()
    {
      var rate := if degradation.inflateRate == 0 then DEFAULT_RATE else degradation.inflateRate;
      rate := if rate < 1 then 1 else rate;
      var k := 0;
      while k < rate
        invariant 0 <= k <= rate
        invariant |inbox| <= |old(inbox)|
        invariant k < rate ==> goal == Run(Thresholds, Machine(Bump(View()), Noop(rate - 1 - k)), inbox)
        invariant k == rate ==> goal == Run(Thresholds, Machine(View(), Sleep), inbox)
      {
        sequence := sequence + 1;
        out := out + [RunNoop(sequence)];
        var done := Await(Noop(rate - 1 - k), goal);
        if !done {
          return false;
        }
        k := k + 1;
      }
      alive := Await(Sleep, goal);
    }

    method CloseRun() returns (carry: State)
      requires pending == []
      modifies this
      ensures inbox == old(inbox)
      ensures carry == Carry(old(View())) && out == old(out) + [Recycled(old(View()))]
    {
      carry := State(region, pending, Newest(couriers, KEPT_COURIERS), 0, degradation);
      out := out + [ContinueAsNew(carry, degradation.Status(), |pending|, history,
                                  couriers[..|couriers| - |carry.availableCouriers|])];
    }

    /** One turn of the main loop. */
    method Iterate(ghost goal: Machine) returns (turn: Turn)
      requires goal == Run(Thresholds, LoopTop(Thresholds, View()), inbox)
      modifies this
      ensures |inbox| <= |old(inbox)|
      ensures turn.Stopped? ==> inbox == [] && goal.core == View()
      ensures turn.Again? ==> goal == Run(Thresholds, LoopTop(Thresholds, View()), inbox)
      ensures turn.Again? && |inbox| == |old(inbox)| ==>
                old(degradation.Status() != published) && degradation.Status() == published
      ensures turn.Recycling? ==>
                && turn.carry.pendingOrders == [] && turn.carry.processed == 0
                && goal == Run(Thresholds, LoopTop(Thresholds, Prologue(turn.carry, out)), inbox)
      ensures turn.Recycling? && |inbox| == |old(inbox)| ==>
                old(pending) == [] && !old(degradation.inflateHistory) && old(Wakes(Thresholds, View()))
    {
      var alive;
      if degradation.inflateHistory {
        alive := InflateHistory(goal);
      } else {
        alive := WaitCondition(goal);
      }
      if !alive {
        return Stopped;
      }
      PublishStatus();
      alive := DrainPending(goal);
      if !alive {
        return Stopped;
      }
      ghost var before := View();
      if !degradation.suspendCan && (processed >= MAX_PROCESSED || history > MAX_HISTORY) {
        var carry := CloseRun();
        RecycleIsLoopTop(before);
        return Recycling(carry);
      }
      RestIsLoopTop(before);
      return Again;
    }

    /** One run, until it continues as new or the inbox is used up. */
    method Execute(state: State, ghost goal: Machine) returns (exit: Exit)
      requires goal == Run(Thresholds, LoopTop(Thresholds, Prologue(state, out)), inbox)
      modifies this
      ensures exit.Suspended? ==> inbox == [] && goal.core == View()
      ensures exit.ContinuedAsNew? ==>
                && |inbox| < |old(inbox)|
                && goal == Run(Thresholds, LoopTop(Thresholds, Prologue(exit.carry, out)), inbox)
    {
      region := state.region;
      pending := state.pendingOrders;
      couriers := state.availableCouriers;
      processed := state.processed;
      degradation := state.degradation;
      sequence := 0;
      history := RUN_START_HISTORY;
      published := degradation.Status();
      while true
        invariant |inbox| <= |old(inbox)|
        invariant goal == Run(Thresholds, LoopTop(Thresholds, View()), inbox)
        invariant |inbox| == |old(inbox)| ==> published == degradation.Status() && history <= MAX_HISTORY
        decreases |inbox|, if degradation.Status() == published then 0 else 1
      {
        var turn := Iterate(goal);
        match turn {
          case Stopped => return Suspended;
          case Recycling(carry) => return ContinuedAsNew(carry);
          case Again =>
        }
      }
    }
  }

  /** The server: hosts run after run until the deliveries are used up. */
  method Host(region: string, deliveries: seq<Activation>) returns (wf: DispatchWorkflow)
    ensures wf.View() == Reached(region, deliveries).core
  {
    ghost var goal := Reached(region, deliveries);
    var state := FreshState(region);
    var inbox, out := deliveries, [];
    while true
      invariant goal == Run(Thresholds, LoopTop(Thresholds, Prologue(state, out)), inbox)
      decreases |inbox|
    {
      wf := new DispatchWorkflow(inbox, out);
      var exit := wf.Execute(state, goal);
      match exit {
        case Suspended => return;
        case ContinuedAsNew(carry) =>
          state, inbox, out := carry, wf.inbox, wf.out;
      }
    }
  }
}
