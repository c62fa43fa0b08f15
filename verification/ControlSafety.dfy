/** The control state is the fold of its signals, however its runs are cut. */
module ControlSafety {
  import opened Wrappers
  import opened ControlModel

  function SignalsOf(es: seq<Activation>): seq<Signal>
    decreases |es|
  {
    if es == [] then [] else es[0].signals + SignalsOf(es[1..])
  }

  /** Every default scenario is present. */
  predicate Complete(state: Scenarios) {
    DefaultScenarios().Keys <= state.Keys
  }

  lemma {:induction false} FoldComplete(state: Scenarios, signals: seq<Signal>)
    requires Complete(state)
    ensures Complete(Fold(state, signals))
    decreases |signals|
  {
    if signals == [] {
    } else {
      FoldComplete(state, signals[..|signals| - 1]);
    }
  }

  lemma {:induction false} FoldConcat(state: Scenarios, x: seq<Signal>, y: seq<Signal>)
    ensures Fold(state, x + y) == Fold(Fold(state, x), y)
    decreases |y|
  {
    if y == [] {
      assert x + y == x;
    } else {
      assert (x + y)[..|x + y| - 1] == x + y[..|y| - 1];
      FoldConcat(state, x, y[..|y| - 1]);
    }
  }

  /** The merge over defaults that opens a run gives back what was carried. */
  lemma CarryIsExact(state: Scenarios, runs: nat)
    requires Complete(state)
    ensures Prologue(state, runs).scenarios == state
  {
    assert RETRY_STORM in state;
    assert DefaultScenarios() + state == state;
  }

  /** A run that is handed a map without some scenario fills in that scenario's
      defaults, and keeps whatever it was handed. */
  lemma CarryFillsIn(carried: Scenarios, runs: nat, name: string)
    ensures var state := Prologue(carried, runs).scenarios;
            && (name in state <==> name in carried || name in DefaultScenarios())
            && (name in state ==> state[name] == if name in carried then carried[name] else DefaultScenarios()[name])
  {
  }

  /** Setting a scenario the state lacks starts from its defaults, if it has any. */
  lemma SettingFillsIn(state: Scenarios, name: string, enabled: bool, params: Params, param: string)
    requires name !in state
    ensures ParamOf(Apply(state, SetScenario(name, enabled, params)), name, param) ==
            if param in params then Some(params[param]) else ParamOf(DefaultScenarios(), name, param)
  {
  }

  lemma {:induction false} RunIsFold(c: Core, es: seq<Activation>)
    requires Complete(c.scenarios)
    ensures Run(c, es).scenarios == Fold(c.scenarios, SignalsOf(es))
    decreases |es|
  {
    if es == [] {
    } else {
      FoldComplete(c.scenarios, es[0].signals);
      CarryIsExact(Fold(c.scenarios, es[0].signals), c.runs + 1);
      RunIsFold(Step(c, es[0]), es[1..]);
      FoldConcat(c.scenarios, es[0].signals, SignalsOf(es[1..]));
    }
  }

  /** Continue-as-new is invisible in the control state: on every schedule, with
      runs cut anywhere, it is the fold of the signals over the defaults. */
  lemma ControlStateIsFold(es: seq<Activation>)
    ensures Reached(es).scenarios == Fold(DefaultScenarios(), SignalsOf(es))
    ensures Complete(Reached(es).scenarios)
  {
    RunIsFold(Prologue(map[], 0), es);
    FoldComplete(DefaultScenarios(), SignalsOf(es));
  }

  // ----- what the fold says, signal by signal

  function ParamOf(state: Scenarios, name: string, param: string): Option<Value> {
    if name in state && param in state[name].params then Some(state[name].params[param]) else None
  }

  function EnabledIn(state: Scenarios, name: string): bool {
    name in state && state[name].enabled
  }

  /** The last write to a parameter since the last reset, else its default. */
  function LastWrite(signals: seq<Signal>, name: string, param: string): Option<Value>
    decreases |signals|
  {
    if signals == [] then ParamOf(DefaultScenarios(), name, param)
    else
      var earlier := signals[..|signals| - 1];
      match signals[|signals| - 1]
      case ResetAll => ParamOf(DefaultScenarios(), name, param)
      case SetScenario(n, _, params) =>
        if n == name && param in params then Some(params[param]) else LastWrite(earlier, name, param)
      case RecordAction(action, when) =>
        if name == ACTIONS && action == param then Some(Text(when)) else LastWrite(earlier, name, param)
  }

  /** The last switch since the last reset, else off. */
  function LastSwitch(signals: seq<Signal>, name: string): bool
    decreases |signals|
  {
    if signals == [] then false
    else
      match signals[|signals| - 1]
      case ResetAll => false
      case SetScenario(n, enabled, _) =>
        if n == name then enabled else LastSwitch(signals[..|signals| - 1], name)
      case RecordAction(_, _) => LastSwitch(signals[..|signals| - 1], name)
  }

  lemma {:induction false} FoldIsLastWriter(signals: seq<Signal>, name: string, param: string)
    ensures ParamOf(Fold(DefaultScenarios(), signals), name, param) == LastWrite(signals, name, param)
    ensures EnabledIn(Fold(DefaultScenarios(), signals), name) == LastSwitch(signals, name)
    decreases |signals|
  {
    if signals == [] {
    } else {
      var earlier := signals[..|signals| - 1];
      FoldIsLastWriter(earlier, name, param);
      FoldComplete(DefaultScenarios(), earlier);
    }
  }

  /** Every parameter shows its last write since the last reset, else its
      default, and every switch its last setting: resets forget everything. */
  lemma ControlIsLastWriter(es: seq<Activation>, name: string, param: string)
    ensures ParamOf(Reached(es).scenarios, name, param) == LastWrite(SignalsOf(es), name, param)
    ensures EnabledIn(Reached(es).scenarios, name) == LastSwitch(SignalsOf(es), name)
  {
    ControlStateIsFold(es);
    FoldIsLastWriter(SignalsOf(es), name, param);
  }

  /** All six scenarios off, each with its own parameters. */
  predicate AtDefaults(state: Scenarios) {
    && state.Keys == {"retry_storm", "entity_history", "close_history_bloat", "workflow_failure",
                      "timeout_spike", "fanout_storm"}
    && state["retry_storm"] == Scenario(false, map["failure_probability" := Number(0.6)])
    && state["entity_history"] == Scenario(false, map["region" := Text("us-west"), "suspend_can" := Flag(true),
                                                      "inflate_history" := Flag(true), "inflate_rate" := Whole(40)])
    && state["close_history_bloat"] == Scenario(false, map["iterations" := Whole(700)])
    && state["workflow_failure"] == Scenario(false, map["failure_probability" := Number(0.4)])
    && state["timeout_spike"] == Scenario(false, map["mode" := Text("workflow"), "probability" := Number(0.5)])
    && state["fanout_storm"] == Scenario(false, map["children" := Whole(400)])
  }

  lemma DefaultsAre()
    ensures AtDefaults(DefaultScenarios())
  {
  }

  lemma ResetIsLast(state: Scenarios, signals: seq<Signal>)
    ensures Fold(state, signals + [ResetAll]) == DefaultScenarios()
  {
    assert (signals + [ResetAll])[..|signals|] == signals;
  }

  /** What every reset returns to, whatever went before and however runs were cut. */
  lemma ResetRestoresDefaults(es: seq<Activation>, h: nat)
    ensures AtDefaults(Reached(es + [Activation([ResetAll], h)]).scenarios)
  {
    var a := Activation([ResetAll], h);
    ControlStateIsFold(es + [a]);
    SignalsConcat(es, [a]);
    assert SignalsOf([a]) == [ResetAll] by {
      assert [a][1..] == [];
      assert [ResetAll] + [] == [ResetAll];
    }
    ResetIsLast(DefaultScenarios(), SignalsOf(es));
    DefaultsAre();
  }

  lemma {:induction false} SignalsConcat(x: seq<Activation>, y: seq<Activation>)
    ensures SignalsOf(x + y) == SignalsOf(x) + SignalsOf(y)
    decreases |x|
  {
    if x == [] {
      assert x + y == y;
    } else {
      assert (x + y)[1..] == x[1..] + y;
      SignalsConcat(x[1..], y);
      assert x[0].signals + SignalsOf(x[1..]) + SignalsOf(y) == x[0].signals + (SignalsOf(x[1..]) + SignalsOf(y));
    }
  }

  // ----- when it recycles

  lemma {:induction false} ParkedAppliesNothing(c: Core, es: seq<Activation>)
    requires c.applied == 0
    ensures Run(c, es).applied == 0
    decreases |es|
  {
    if es == [] {
    } else {
      ParkedAppliesNothing(Step(c, es[0]), es[1..]);
    }
  }

  /** The counter starts again at every wake-up, so the signal limit applies to
      one batch: a run is cut exactly by a batch of 500 or by its history. */
  lemma RecyclesExactlyPerBatch(es: seq<Activation>, a: Activation)
    ensures Step(Reached(es), a).runs ==
            Reached(es).runs + if |a.signals| >= 500 || a.history > 1500 then 1 else 0
  {
    ParkedAppliesNothing(Prologue(map[], 0), es);
  }

  /** One signal at a time, each in a batch of its own. */
  function OneByOne(n: nat): seq<Activation> {
    if n == 0 then [] else [Activation([ResetAll], 10)] + OneByOne(n - 1)
  }

  lemma {:induction false} OneByOneIsUncut(c: Core, n: nat)
    requires c.applied == 0
    ensures Run(c, OneByOne(n)).runs == c.runs && |SignalsOf(OneByOne(n))| == n
    decreases n
  {
    if n == 0 {
    } else {
      var es := OneByOne(n);
      assert es[1..] == OneByOne(n - 1);
      OneByOneIsUncut(Step(c, es[0]), n - 1);
    }
  }

  /** So a run takes any number of signals uncut, as long as they come apart. */
  lemma RunsTakeAnyNumber(n: nat)
    ensures exists es :: |SignalsOf(es)| == n && Reached(es).runs == 0
  {
    OneByOneIsUncut(Prologue(map[], 0), n);
    assert Reached(OneByOne(n)).runs == 0;
  }
}
