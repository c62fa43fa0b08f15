/** Runs of the fleet on which the relay's promises fail, each from the start. */
module FleetRuns {
  import opened Names
  import D = DispatchModel
  import L = DispatchLedger
  import C = ControlModel
  import opened Relay
  import opened Fleet

  // The mode the default parameters ask for.
  const DEGRADING: D.Degradation := D.Degradation(true, true, 40)

  function Ask(params: C.Params): Event {
    ControlMoves(C.Activation([C.SetScenario(C.ENTITY_HISTORY, true, params)], 10))
  }

  function AskFor(name: string): Event {
    Ask(map["region" := C.Text(name)])
  }

  const RESET: Event := ControlMoves(C.Activation([C.ResetAll], 10))

  /** The scenarios once they are asked for with these parameters. */
  function On(scenarios: C.Scenarios, params: C.Params): C.Scenarios {
    C.Merge(scenarios, C.ENTITY_HISTORY, true, params)
  }

  function OnFor(name: string): C.Scenarios {
    On(C.DefaultScenarios(), map["region" := C.Text(name)])
  }

  function Holding(f: System, scenarios: C.Scenarios): System {
    f.(control := f.control.(scenarios := scenarios, applied := 0, history := 10))
  }

  // ----- playing a few events

  lemma {:induction false} PlayConcat(f: System, x: seq<Event>, y: seq<Event>)
    ensures Play(f, x + y) == Play(Play(f, x), y)
    decreases |x|
  {
    if x == [] {
      assert x + y == y;
    } else {
      var n := Next(f, x[0]);
      assert (x + y)[1..] == x[1..] + y;
      PlayConcat(n, x[1..], y);
      assert Play(f, x) == Play(n, x[1..]);
    }
  }

  lemma PlayTwo(f: System, a: Event, b: Event)
    ensures Play(f, [a, b]) == Next(Next(f, a), b)
  {
    var n := Next(f, a);
    assert [a, b][1..] == [b] && [b][1..] == [];
    assert Play(n, [b]) == Play(Next(n, b), []);
  }

  lemma PlayThree(f: System, a: Event, b: Event, c: Event)
    ensures Play(f, [a, b, c]) == Next(Next(Next(f, a), b), c)
  {
    PlayTwo(Next(f, a), b, c);
    assert [a, b, c][1..] == [b, c];
  }

  // ----- what single events do

  lemma AskingSets(f: System, params: C.Params)
    requires f.control.applied == 0
    ensures Next(f, Ask(params)) == Holding(f, On(f.control.scenarios, params))
  {
    var s := C.SetScenario(C.ENTITY_HISTORY, true, params);
    assert [s][..0] == [];
    assert C.Fold(f.control.scenarios, [s]) == C.Apply(f.control.scenarios, s);
  }

  lemma Resets(f: System)
    requires f.control.applied == 0
    ensures Next(f, RESET) == Holding(f, C.DefaultScenarios()) && Off(Next(f, RESET))
  {
    assert [C.ResetAll][..0] == [];
    assert C.Fold(f.control.scenarios, [C.ResetAll]) == C.DefaultScenarios();
  }

  function Clearance(degraded: C.Value, name: string): seq<Send> {
    if Truthy(degraded) && degraded != C.Text(name) then [Reset(degraded)] else []
  }

  /** What a tick plans once a region is asked for. */
  predicate PlansFor(scenarios: C.Scenarios, name: string, degraded: C.Value) {
    PlanTick(scenarios, degraded) == Plan(Clearance(degraded, name) + [Send(name, DEGRADING)], C.Text(name), false)
  }

  /** The parameters are the defaults, but for the region. */
  predicate DefaultButRegion(params: C.Params) {
    && "suspend_can" in params && params["suspend_can"] == C.Flag(true)
    && "inflate_history" in params && params["inflate_history"] == C.Flag(true)
    && "inflate_rate" in params && params["inflate_rate"] == C.Whole(40)
  }

  lemma DefaultsAreDefault(name: string)
    ensures DefaultButRegion(ParamsOf(OnFor(name), C.ENTITY_HISTORY))
    ensures C.ENTITY_HISTORY in OnFor(name)
  {
  }

  lemma AskingPlans(scenarios: C.Scenarios, name: string, degraded: C.Value)
    requires C.ENTITY_HISTORY in scenarios && DefaultButRegion(scenarios[C.ENTITY_HISTORY].params)
    ensures PlansFor(On(scenarios, map["region" := C.Text(name)]), name, degraded)
  {
    var params := scenarios[C.ENTITY_HISTORY].params + map["region" := C.Text(name)];
    assert ParamsOf(On(scenarios, map["region" := C.Text(name)]), C.ENTITY_HISTORY) == params;
    assert DefaultButRegion(params) && params["region"] == C.Text(name);
  }

  lemma WakeAndSend(f: System, name: string)
    requires Idle(f) && f.relay.degraded == C.Null && name in f.regions && f.regions[name].accepted == []
    requires PlansFor(f.control.scenarios, name, C.Null)
    ensures Play(f, [RelayWakes(true), RelaySends(true)]) ==
            System(f.regions[name := f.regions[name].(accepted := [DEGRADING])], f.control,
                   RelayState(f.control.scenarios, C.Text(name), [], C.Text(name), false, false))
  {
    var f1 := Next(f, RelayWakes(true));
    assert f1.relay.todo == [Send(name, DEGRADING)] && f1.relay.todo[1..] == [];
    assert f.regions[name].accepted + [DEGRADING] == [DEGRADING];
    PlayTwo(f, RelayWakes(true), RelaySends(true));
  }

  // ----- one region degraded

  function Provoke(name: string): seq<Event> {
    [AskFor(name)] + [RelayWakes(true), RelaySends(true)]
  }

  /** The relay remembers the region and the region has been told. */
  predicate Provoked(f: System, name: string) {
    && f.control == Initial().control.(scenarios := OnFor(name), applied := 0, history := 10)
    && Idle(f) && f.relay.degraded == C.Text(name) && name != ""
    && f.regions.Keys == Initial().regions.Keys
    && forall r :: r in f.regions ==>
         f.regions[r] == (if r == name then FreshRegion(r).(accepted := [DEGRADING]) else FreshRegion(r))
  }

  lemma ProvokeDegrades(name: string)
    requires name in REGIONS
    ensures Provoked(Play(Initial(), Provoke(name)), name)
  {
    var f := Initial();
    AskingSets(f, map["region" := C.Text(name)]);
    DefaultsAreDefault(name);
    AskingPlans(C.DefaultScenarios(), name, C.Null);
    var f1 := Next(f, AskFor(name));
    WakeAndSend(f1, name);
    PlayConcat(f, [AskFor(name)], [RelayWakes(true), RelaySends(true)]);
    assert Play(f, [AskFor(name)]) == f1 by {
      assert [AskFor(name)][1..] == [];
    }
    assert "" !in REGIONS;
  }

  lemma ProvokedIsDegraded(f: System, name: string)
    requires Provoked(f, name) && name in REGIONS
    ensures name in f.regions && IsDegraded(f.regions[name])
  {
  }

  // ----- a lost reset

  lemma LosingForgets(f: System, name: string)
    requires Idle(f) && Off(f) && f.relay.degraded == C.Text(name) && name != ""
    requires name in f.regions && IsDegraded(f.regions[name])
    ensures var n := Play(f, [RelayWakes(true), RelaySends(false)]);
            Forgotten(n, name) && Off(n) && !n.relay.stopped
  {
    var f1 := Next(f, RelayWakes(true));
    assert f1.relay.todo == [Reset(C.Text(name))] && f1.relay.todo[1..] == [];
    PlayTwo(f, RelayWakes(true), RelaySends(false));
  }

  function LosingReset(name: string): seq<Event> {
    Provoke(name) + [RESET] + [RelayWakes(true), RelaySends(false)]
  }

  /** Any region can be forgotten: degrade it, reset, and lose the one signal. */
  lemma ResetCanBeLost(name: string)
    requires name in REGIONS
    ensures var f := Play(Initial(), LosingReset(name)); Forgotten(f, name) && Off(f) && !f.relay.stopped
  {
    var f := Play(Initial(), Provoke(name));
    ProvokeDegrades(name);
    ProvokedIsDegraded(f, name);
    Resets(f);
    LosingForgets(Next(f, RESET), name);
    PlayConcat(Initial(), Provoke(name) + [RESET], [RelayWakes(true), RelaySends(false)]);
    PlayConcat(Initial(), Provoke(name), [RESET]);
    assert Play(f, [RESET]) == Next(f, RESET) by {
      assert [RESET][1..] == [];
    }
  }

  // ----- a reset lost on the move

  /** The tick that moves on from a region without its reset arriving. */
  const LOSING_MOVE: seq<Event> := [RelayWakes(true), RelaySends(false), RelaySends(true)]

  /** The relay remembers the second region and the first is degraded besides. */
  predicate MovedOn(f: System, slow: string, quick: string) {
    && Idle(f) && f.control.applied == 0 && !Asks(f.control.scenarios, slow)
    && f.relay.degraded == C.Text(quick) && quick != ""
    && Stray(f, slow) && quick in f.regions && IsDegraded(f.regions[quick])
  }

  lemma MoveStrands(f: System, slow: string, quick: string)
    requires Idle(f) && f.relay.degraded == C.Text(slow) && slow != "" && quick != "" && slow != quick
    requires f.control.applied == 0 && PlansFor(f.control.scenarios, quick, C.Text(slow))
    requires Asks(f.control.scenarios, quick)
    requires slow in f.regions && IsDegraded(f.regions[slow]) && quick in f.regions
    ensures MovedOn(Play(f, LOSING_MOVE), slow, quick)
  {
    var f1 := Next(f, RelayWakes(true));
    assert f1.relay.todo == [Reset(C.Text(slow)), Send(quick, DEGRADING)];
    var f2 := Next(f1, RelaySends(false));
    assert f2.relay.todo == [Send(quick, DEGRADING)] && f2.relay.todo[1..] == [];
    AcceptSetsMode(f2.regions, f2.relay.todo[0]);
    PlayThree(f, RelayWakes(true), RelaySends(false), RelaySends(true));
  }

  /** The tick that clears the fleet, its signal arriving. */
  lemma ClearingLeavesStray(f: System, slow: string, quick: string)
    requires MovedOn(f, slow, quick)
    ensures var n := Play(f, [RESET, RelayWakes(true), RelaySends(true)]);
            && Forgotten(n, slow) && Off(n) && !n.relay.stopped
            && quick in n.regions && !IsDegraded(n.regions[quick])
  {
    Resets(f);
    var f1 := Next(f, RESET);
    var f2 := Next(f1, RelayWakes(true));
    assert f2.relay.todo == [Reset(C.Text(quick))] && f2.relay.todo[1..] == [];
    AcceptSetsMode(f2.regions, f2.relay.todo[0]);
    PlayThree(f, RESET, RelayWakes(true), RelaySends(true));
  }

  lemma AskingAsks(scenarios: C.Scenarios, name: string)
    ensures Asks(On(scenarios, map["region" := C.Text(name)]), name)
  {
  }

  function Stranding(slow: string, quick: string): seq<Event> {
    Provoke(slow) + [AskFor(quick)] + LOSING_MOVE
  }

  /** Any region can be stranded by moving the scenario on to any other: its reset
      is lost, the scenario still being on. Resetting afterwards, with every signal
      arriving, heals the other region and leaves the first degraded and forgotten. */
  lemma MoveCanStrand(slow: string, quick: string)
    requires slow in REGIONS && quick in REGIONS && slow != quick
    ensures MovedOn(Play(Initial(), Stranding(slow, quick)), slow, quick)
    ensures var f := Play(Initial(), Stranding(slow, quick) + [RESET, RelayWakes(true), RelaySends(true)]);
            && Forgotten(f, slow) && Off(f) && !f.relay.stopped
            && quick in f.regions && !IsDegraded(f.regions[quick])
  {
    StrandingMovesOn(slow, quick);
    ClearingLeavesStray(Play(Initial(), Stranding(slow, quick)), slow, quick);
    PlayConcat(Initial(), Stranding(slow, quick), [RESET, RelayWakes(true), RelaySends(true)]);
  }

  lemma StrandingMovesOn(slow: string, quick: string)
    requires slow in REGIONS && quick in REGIONS && slow != quick
    ensures MovedOn(Play(Initial(), Stranding(slow, quick)), slow, quick)
  {
    var f := Play(Initial(), Provoke(slow));
    ProvokeDegrades(slow);
    ProvokedIsDegraded(f, slow);
    AskingSets(f, map["region" := C.Text(quick)]);
    DefaultsAreDefault(slow);
    AskingPlans(OnFor(slow), quick, C.Text(slow));
    AskingAsks(OnFor(slow), quick);
    assert "" !in REGIONS;
    MoveStrands(Next(f, AskFor(quick)), slow, quick);
    PlayConcat(Initial(), Provoke(slow) + [AskFor(quick)], LOSING_MOVE);
    PlayConcat(Initial(), Provoke(slow), [AskFor(quick)]);
    assert Play(f, [AskFor(quick)]) == Next(f, AskFor(quick)) by {
      assert [AskFor(quick)][1..] == [];
    }
  }

  // ----- a rate that is no number

  const NO_RATE: C.Params := map["inflate_rate" := C.Null]

  lemma NoRateIsBad(scenarios: C.Scenarios, degraded: C.Value)
    requires C.ENTITY_HISTORY in scenarios
    requires Get(scenarios[C.ENTITY_HISTORY].params, "region", C.Text("us-west")) == degraded
    ensures PlanTick(On(scenarios, NO_RATE), degraded) == Plan([], degraded, true)
  {
    var params := scenarios[C.ENTITY_HISTORY].params + NO_RATE;
    assert ParamsOf(On(scenarios, NO_RATE), C.ENTITY_HISTORY) == params;
    assert "inflate_rate" in params && params["inflate_rate"] == C.Null;
    assert Get(params, "region", C.Text("us-west")) == degraded;
  }

  lemma WakingEnds(f: System, name: string)
    requires Idle(f) && name in f.regions && IsDegraded(f.regions[name])
    requires PlanTick(f.control.scenarios, f.relay.degraded).raises
    requires PlanTick(f.control.scenarios, f.relay.degraded).sends == []
    ensures var n := Next(f, RelayWakes(true));
            n.relay.stopped && name in n.regions && IsDegraded(n.regions[name])
  {
  }

  function Crashing(name: string): seq<Event> {
    Provoke(name) + [Ask(NO_RATE), RelayWakes(true)]
  }

  /** A rate of null ends the generator and leaves the degraded region degraded. */
  lemma BadRateStrandsRegion(name: string)
    requires name in REGIONS
    ensures var f := Play(Initial(), Crashing(name));
            f.relay.stopped && name in f.regions && IsDegraded(f.regions[name])
  {
    var f := Play(Initial(), Provoke(name));
    ProvokeDegrades(name);
    ProvokedIsDegraded(f, name);
    AskingSets(f, NO_RATE);
    NoRateIsBad(OnFor(name), C.Text(name));
    WakingEnds(Next(f, Ask(NO_RATE)), name);
    PlayConcat(Initial(), Provoke(name), [Ask(NO_RATE), RelayWakes(true)]);
    PlayTwo(f, Ask(NO_RATE), RelayWakes(true));
  }

  // ----- a region that lags

  function Obeys(name: string): Event {
    RegionMoves(name, D.Activation([D.SetDegradation(DEGRADING)], false, 10))
  }

  lemma ObeyingRuns(f: System, name: string)
    requires name in f.regions && f.regions[name].accepted == [DEGRADING]
    ensures var n := Next(f, Obeys(name));
            && n == f.(regions := n.regions) && n.regions.Keys == f.regions.Keys
            && RunsDegraded(n.regions[name]) && n.regions[name].accepted == []
            && forall r :: r in f.regions && r != name ==> n.regions[r] == f.regions[r]
  {
    var a := D.Activation([D.SetDegradation(DEGRADING)], false, 10);
    assert L.DegradationsIn(a.signals) == [DEGRADING];
    StepKeepsDegradation(f.regions[name].machine, a);
    assert a.signals[1..] == [];
  }

  /** One region runs degraded, the relay remembers it, and another is asked for. */
  predicate Shifting(f: System, slow: string, quick: string) {
    && Idle(f) && f.relay.degraded == C.Text(slow) && slow != "" && slow != quick
    && PlansFor(f.control.scenarios, quick, C.Text(slow))
    && slow in f.regions && f.regions[slow].accepted == [] && RunsDegraded(f.regions[slow])
    && quick in f.regions && f.regions[quick].accepted == []
  }

  function Setup(slow: string, quick: string): seq<Event> {
    Provoke(slow) + [Obeys(slow), AskFor(quick)]
  }

  lemma SetupShifts(slow: string, quick: string)
    requires slow in REGIONS && quick in REGIONS && slow != quick
    ensures Shifting(Play(Initial(), Setup(slow, quick)), slow, quick)
  {
    var f := Play(Initial(), Provoke(slow));
    ProvokeDegrades(slow);
    ObeyingRuns(f, slow);
    var f1 := Next(f, Obeys(slow));
    AskingSets(f1, map["region" := C.Text(quick)]);
    DefaultsAreDefault(slow);
    AskingPlans(OnFor(slow), quick, C.Text(slow));
    PlayConcat(Initial(), Provoke(slow), [Obeys(slow), AskFor(quick)]);
    PlayTwo(f, Obeys(slow), AskFor(quick));
  }

  const MOVE_ON: seq<Event> := [RelayWakes(true), RelaySends(true), RelaySends(true)]

  /** The tick that moves the degradation from one region to another. */
  lemma MovingOn(f: System, slow: string, quick: string)
    requires Shifting(f, slow, quick)
    ensures var n := Play(f, MOVE_ON);
            && n.regions.Keys == f.regions.Keys
            && n.regions[slow] == f.regions[slow].(accepted := [D.NO_DEGRADATION])
            && n.regions[quick] == f.regions[quick].(accepted := [DEGRADING])
  {
    var f1 := Next(f, RelayWakes(true));
    assert f1.relay.todo == [Reset(C.Text(slow)), Send(quick, DEGRADING)];
    var f2 := Next(f1, RelaySends(true));
    assert f2.relay.todo == [Send(quick, DEGRADING)];
    PlayThree(f, RelayWakes(true), RelaySends(true), RelaySends(true));
  }

  lemma ShiftRuns(f: System, slow: string, quick: string)
    requires Shifting(f, slow, quick)
    ensures var n := Play(f, MOVE_ON + [Obeys(quick)]);
            && slow in n.regions && quick in n.regions
            && RunsDegraded(n.regions[slow]) && RunsDegraded(n.regions[quick]) && !IsDegraded(n.regions[slow])
  {
    var n := Play(f, MOVE_ON);
    MovingOn(f, slow, quick);
    ObeyingRuns(n, quick);
    PlayConcat(f, MOVE_ON, [Obeys(quick)]);
    assert Play(n, [Obeys(quick)]) == Next(n, Obeys(quick)) by {
      assert [Obeys(quick)][1..] == [];
    }
  }

  function Lagging(slow: string, quick: string): seq<Event> {
    Setup(slow, quick) + (MOVE_ON + [Obeys(quick)])
  }

  lemma LaggingIsReliable(slow: string, quick: string)
    ensures Reliable(Lagging(slow, quick))
  {
  }

  /** Two regions can run degraded at once, though no signal is lost: the first
      has not handled its healing when the second handles its degradation. */
  lemma TwoCanRunDegraded(slow: string, quick: string)
    requires slow in REGIONS && quick in REGIONS && slow != quick
    ensures Reliable(Lagging(slow, quick))
    ensures var f := Play(Initial(), Lagging(slow, quick));
            && slow in f.regions && quick in f.regions
            && RunsDegraded(f.regions[slow]) && RunsDegraded(f.regions[quick])
            && !IsDegraded(f.regions[slow])
  {
    LaggingIsReliable(slow, quick);
    SetupShifts(slow, quick);
    ShiftRuns(Play(Initial(), Setup(slow, quick)), slow, quick);
    PlayConcat(Initial(), Setup(slow, quick), MOVE_ON + [Obeys(quick)]);
  }
}
