/** The control workflow object, proved against the entity's machine. */
module ControlEntity {
  import opened ControlModel

  datatype Exit = Suspended | ContinuedAsNew(carried: Scenarios)

  class DemoControlWorkflow {
    var scenarios: Scenarios
    var applied: nat

    var history: nat
    var runs: nat
    var inbox: seq<Activation>

    function View(): Core
      reads this
    {
      Core(scenarios, applied, history, runs)
    }

    constructor (inbox: seq<Activation>, runs: nat)
      ensures this.inbox == inbox && View() == Core(DefaultScenarios(), 0, RUN_START_HISTORY, runs)
    {
      scenarios, applied := DefaultScenarios(), 0;
      history, this.runs, this.inbox := RUN_START_HISTORY, runs, inbox;
    }

    /** `merge_scenario`, in place. */
    method MergeScenario(name: string, enabled: bool, params: Params)
      modifies this`scenarios
      ensures scenarios == Merge(old(scenarios), name, enabled, params)
    {
      var defaults := DefaultScenarios();
      var base := EMPTY_SCENARIO;
      if name in scenarios {
        base := scenarios[name];
      } else if name in defaults {
        base := defaults[name];
      }
      var merged := base.params;
      merged := merged + params;
      scenarios := scenarios[name := Scenario(enabled, merged)];
    }

    method SetScenario(name: string, enabled: bool, params: Params)
      modifies this`scenarios, this`applied
      ensures scenarios == Apply(old(scenarios), ControlModel.SetScenario(name, enabled, params))
      ensures applied == old(applied) + 1
    {
      MergeScenario(name, enabled, params);
      applied := applied + 1;
    }

    method ResetAll()
      modifies this`scenarios, this`applied
      ensures scenarios == Apply(old(scenarios), ControlModel.ResetAll)
      ensures applied == old(applied) + 1
    {
      scenarios := DefaultScenarios();
      applied := applied + 1;
    }

    method RecordAction(action: string, when: string)
      modifies this`scenarios, this`applied
      ensures scenarios == Apply(old(scenarios), ControlModel.RecordAction(action, when))
      ensures applied == old(applied) + 1
    {
      if ACTIONS !in scenarios {
        scenarios := scenarios[ACTIONS := EMPTY_SCENARIO];
      }
      var actions := scenarios[ACTIONS];
      scenarios := scenarios[ACTIONS := actions.(params := actions.params[action := Text(when)])];
      applied := applied + 1;
    }

    method Handle(a: Activation)
      modifies this`scenarios, this`applied, this`history
      ensures View() == Receive(old(View()), a)
    {
      history := a.history;
      var i := 0;
      while i < |a.signals|
        invariant 0 <= i <= |a.signals|
        invariant scenarios == Fold(old(scenarios), a.signals[..i])
        invariant applied == old(applied) + i && history == a.history
      {
        match a.signals[i] {
          case SetScenario(name, enabled, params) => this.SetScenario(name, enabled, params);
          case ResetAll => this.ResetAll();
          case RecordAction(action, when) => this.RecordAction(action, when);
        }
        assert a.signals[..i + 1][..i] == a.signals[..i];
        i := i + 1;
      }
      assert a.signals[..|a.signals|] == a.signals;
    }

    method WaitCondition(ghost goal: Core) returns (resumed: bool)
      requires goal == Run(LoopTop(View()), inbox)
      modifies this
      ensures |inbox| <= |old(inbox)| && runs == old(runs)
      ensures resumed ==> Wakes(View()) && goal == Run(LoopTop(View()), inbox)
      ensures resumed && |inbox| == |old(inbox)| ==> View() == old(View())
      ensures !resumed ==> inbox == [] && goal == View()
    {
      if applied > 0 || history > MAX_HISTORY {
        return true;
      }
      while inbox != []
        invariant |inbox| <= |old(inbox)| && runs == old(runs)
        invariant goal == Run(View(), inbox)
        decreases |inbox|
      {
        var a := inbox[0];
        inbox := inbox[1..];
        Handle(a);
        if applied > 0 || history > MAX_HISTORY {
          return true;
        }
      }
      return false;
    }

    /** The prologue: what was carried, over the defaults. */
    method Load(carried: Scenarios)
      requires View() == Core(DefaultScenarios(), 0, RUN_START_HISTORY, runs)
      modifies this`scenarios
      ensures View() == Prologue(carried, runs)
    {
      if carried != map[] {
        var merged := DefaultScenarios();
        merged := merged + carried;
        scenarios := merged;
      }
    }

    /** One run, until it continues as new or waits for good. */
    method Execute(carried: Scenarios, ghost goal: Core) returns (exit: Exit)
      requires View() == Core(DefaultScenarios(), 0, RUN_START_HISTORY, runs)
      requires goal == Run(LoopTop(Prologue(carried, runs)), inbox)
      modifies this
      ensures runs == old(runs)
      ensures exit.Suspended? ==> inbox == [] && goal == View()
      ensures exit.ContinuedAsNew? ==>
                && |inbox| < |old(inbox)|
                && goal == Run(LoopTop(Prologue(exit.carried, runs + 1)), inbox)
    {
      Load(carried);
      while true
        invariant |inbox| <= |old(inbox)| && runs == old(runs)
        invariant goal == Run(LoopTop(View()), inbox)
        invariant !Wakes(View())
        decreases |inbox|
      {
        var resumed := WaitCondition(goal);
        if !resumed {
          return Suspended;
        }
        if applied >= MAX_SIGNALS || history > MAX_HISTORY {
          return ContinuedAsNew(scenarios);
        }
        applied := 0;
      }
    }
  }

  /** The server: hosts run after run until the deliveries are used up. */
  method Host(deliveries: seq<Activation>) returns (wf: DemoControlWorkflow)
    ensures wf.View() == Reached(deliveries)
  {
    ghost var goal := Reached(deliveries);
    var carried: Scenarios := map[];
    var inbox := deliveries;
    var runs: nat := 0;
    while true
      invariant goal == Run(LoopTop(Prologue(carried, runs)), inbox)
      decreases |inbox|
    {
      wf := new DemoControlWorkflow(inbox, runs);
      var exit := wf.Execute(carried, goal);
      match exit {
        case ContinuedAsNew(next) =>
          carried, inbox, runs := next, wf.inbox, wf.runs + 1;
        case Suspended => return;
      }
    }
  }
}
