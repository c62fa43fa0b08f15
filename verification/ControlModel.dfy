/** The scenario registry and the control entity that holds it. */
module ControlModel {
  const MAX_SIGNALS: nat := 500
  const MAX_HISTORY: nat := 1500
  const RUN_START_HISTORY: nat := 3

  datatype Value = Null | Flag(b: bool) | Whole(i: int) | Number(x: real) | Text(s: string)

  type Params = map<string, Value>

  datatype Scenario = Scenario(enabled: bool, params: Params)

  type Scenarios = map<string, Scenario>

  const RETRY_STORM: string := "retry_storm"
  const ENTITY_HISTORY: string := "entity_history"
  const CLOSE_HISTORY_BLOAT: string := "close_history_bloat"
  const WORKFLOW_FAILURE: string := "workflow_failure"
  const TIMEOUT_SPIKE: string := "timeout_spike"
  const FANOUT_STORM: string := "fanout_storm"
  const ACTIONS: string := "_actions"

  function DefaultScenarios(): Scenarios {
    map[
      RETRY_STORM := Scenario(false, map["failure_probability" := Number(0.6)]),
      ENTITY_HISTORY := Scenario(false, map[
        "region" := Text("us-west"),
        "suspend_can" := Flag(true),
        "inflate_history" := Flag(true),
        "inflate_rate" := Whole(40)]),
      CLOSE_HISTORY_BLOAT := Scenario(false, map["iterations" := Whole(700)]),
      WORKFLOW_FAILURE := Scenario(false, map["failure_probability" := Number(0.4)]),
      TIMEOUT_SPIKE := Scenario(false, map["mode" := Text("workflow"), "probability" := Number(0.5)]),
      FANOUT_STORM := Scenario(false, map["children" := Whole(400)])
    ]
  }

  const EMPTY_SCENARIO: Scenario := Scenario(false, map[])

  function Lookup(state: Scenarios, name: string, otherwise: Scenario): Scenario {
    if name in state then state[name] else otherwise
  }

  /** `merge_scenario`: new parameters over the old, or over the defaults. */
  function Merge(state: Scenarios, name: string, enabled: bool, params: Params): Scenarios {
    var base := Lookup(state, name, Lookup(DefaultScenarios(), name, EMPTY_SCENARIO));
    state[name := Scenario(enabled, base.params + params)]
  }

  datatype Signal =
    | SetScenario(name: string, enabled: bool, params: Params)
    | ResetAll
    | RecordAction(action: string, when: string)

  function Apply(state: Scenarios, s: Signal): Scenarios {
    match s
    case SetScenario(name, enabled, params) => Merge(state, name, enabled, params)
    case ResetAll => DefaultScenarios()
    case RecordAction(action, when) =>
      var actions := Lookup(state, ACTIONS, EMPTY_SCENARIO);
      state[ACTIONS := actions.(params := actions.params[action := Text(when)])]
  }

  /** The signals applied in order: what the control state should be. */
  function Fold(state: Scenarios, signals: seq<Signal>): Scenarios
    decreases |signals|
  {
    if signals == [] then state
    else Apply(Fold(state, signals[..|signals| - 1]), signals[|signals| - 1])
  }

  // ----- the entity, parked between activations

  datatype Activation = Activation(signals: seq<Signal>, history: nat)

  datatype Core = Core(scenarios: Scenarios, applied: nat, history: nat, runs: nat)

  function Receive(c: Core, a: Activation): Core {
    c.(scenarios := Fold(c.scenarios, a.signals), applied := c.applied + |a.signals|, history := a.history)
  }

  predicate Wakes(c: Core) {
    c.applied > 0 || c.history > MAX_HISTORY
  }

  predicate Recycles(c: Core) {
    c.applied >= MAX_SIGNALS || c.history > MAX_HISTORY
  }

  /** A new run starts from the defaults, overlaid with what was carried. */
  function Prologue(carried: Scenarios, runs: nat): Core {
    Core(if carried == map[] then DefaultScenarios() else DefaultScenarios() + carried, 0, RUN_START_HISTORY, runs)
  }

  function LoopTop(c: Core): Core {
    if !Wakes(c) then c
    else if Recycles(c) then Prologue(c.scenarios, c.runs + 1)
    else c.(applied := 0)
  }

  function Step(c: Core, a: Activation): Core {
    LoopTop(Receive(c, a))
  }

  function Run(c: Core, es: seq<Activation>): Core
    decreases |es|
  {
    if es == [] then c else Run(Step(c, es[0]), es[1..])
  }

  function Reached(es: seq<Activation>): Core {
    Run(Prologue(map[], 0), es)
  }
}
