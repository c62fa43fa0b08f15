/** What a region is told when the scenario is set, and which regions there are. */
module FleetModes {
  import opened Names
  import opened Wrappers
  import D = DispatchModel
  import R = DispatchRecovery
  import C = ControlModel
  import CS = ControlSafety
  import opened Relay
  import opened Fleet

  // ----- the regions

  /** The fleet is these five regions, healthy and parked. */
  lemma FleetStarts(r: string)
    ensures r in Initial().regions <==> r in {"us-west", "us-east", "midwest", "south", "northeast"}
    ensures r in Initial().regions ==>
              Initial().regions[r].accepted == [] && R.Green(Initial().regions[r].machine)
  {
    assert r in REGIONS <==> r in {"us-west", "us-east", "midwest", "south", "northeast"};
  }

  /** The keep-alive starts every region that is gone, healthy and parked, and leaves
      the others alone. */
  lemma KeptAliveRestores(f: System, r: string)
    requires !f.relay.stopped && r in REGIONS
    ensures var n := Next(f, KeptAlive);
            && r in n.regions && n.control == f.control && n.relay == f.relay
            && if r in f.regions then n.regions[r] == f.regions[r]
               else n.regions[r].accepted == [] && R.Green(n.regions[r].machine)
  {
  }

  // ----- setting the scenario

  lemma {:induction false} PlayKeepsComplete(f: System, es: seq<Event>)
    requires CS.Complete(f.control.scenarios)
    ensures CS.Complete(Play(f, es).control.scenarios)
    decreases |es|
  {
    if es == [] {
    } else {
      if es[0].ControlMoves? {
        CS.FoldComplete(f.control.scenarios, es[0].signals.signals);
        CS.CarryIsExact(C.Fold(f.control.scenarios, es[0].signals.signals), f.control.runs + 1);
      }
      PlayKeepsComplete(Next(f, es[0]), es[1..]);
    }
  }

  lemma ControlHolds(c: C.Core, signals: seq<C.Signal>, h: nat)
    requires CS.Complete(c.scenarios)
    ensures C.Step(c, C.Activation(signals, h)).scenarios == C.Fold(c.scenarios, signals)
  {
    CS.FoldComplete(c.scenarios, signals);
    CS.CarryIsExact(C.Fold(c.scenarios, signals), c.runs + 1);
  }

  lemma FoldOne(state: C.Scenarios, s: C.Signal)
    ensures C.Fold(state, [s]) == C.Apply(state, s)
  {
    assert [s][..0] == [];
  }

  /** A tick that tells one region, resetting another before if one is remembered. */
  predicate TickTells(f: System, g: System, r: string, d: D.Degradation) {
    && r in g.regions && Mode(g.regions[r]) == d
    && g.relay.todo == [] && !g.relay.stopped && g.relay.degraded == C.Text(r)
    && var gone := RegionName(f.relay.degraded);
       gone !in {"", r} && gone in g.regions ==> Mode(g.regions[gone]) == D.Degradation(false, false, 40)
  }

  /** The plan of such a tick. */
  predicate PlansTo(f: System, r: string, d: D.Degradation) {
    PlanTick(f.control.scenarios, f.relay.degraded) ==
    Plan((if Truthy(f.relay.degraded) && f.relay.degraded != C.Text(r) then [Reset(f.relay.degraded)] else [])
           + [Send(r, d)],
         C.Text(r), false)
  }

  lemma LastSendTells(f: System, r: string, d: D.Degradation)
    requires f.relay.todo == [Send(r, d)] && !f.relay.stopped && !f.relay.raising && f.relay.next == C.Text(r)
    requires r in f.regions
    ensures var g := FinishTick(f);
            && r in g.regions && Mode(g.regions[r]) == d
            && g.relay.todo == [] && !g.relay.stopped && g.relay.degraded == C.Text(r)
            && g.regions.Keys == f.regions.Keys
            && forall x :: x in f.regions && x != r ==> g.regions[x] == f.regions[x]
  {
    AcceptSetsMode(f.regions, f.relay.todo[0]);
    assert f.relay.todo[1..] == [];
    assert FinishTick(f) == Next(f, RelaySends(true));
  }

  lemma PlanTells(f: System, r: string, d: D.Degradation)
    requires Idle(f) && r in f.regions && r != "" && PlansTo(f, r, d)
    ensures TickTells(f, FinishTick(Next(f, RelayWakes(true))), r, d)
  {
    var f1 := Next(f, RelayWakes(true));
    NamedIsTruthy(f.relay.degraded);
    if |f1.relay.todo| == 1 {
      LastSendTells(f1, r, d);
    } else {
      var f2 := Next(f1, RelaySends(true));
      AcceptSetsMode(f1.regions, f1.relay.todo[0]);
      assert f1.relay.todo[1..] == [Send(r, d)];
      assert FinishTick(f1) == FinishTick(f2);
      LastSendTells(f2, r, d);
    }
  }

  /** The parameters of the scenario, set one by one. */
  function ModeParams(r: string, suspend: bool, inflate: bool, rate: int): C.Params {
    map["region" := C.Text(r), "suspend_can" := C.Flag(suspend),
        "inflate_history" := C.Flag(inflate), "inflate_rate" := C.Whole(rate)]
  }

  predicate HasMode(params: C.Params, r: string, suspend: bool, inflate: bool, rate: int) {
    && "region" in params && params["region"] == C.Text(r)
    && "suspend_can" in params && params["suspend_can"] == C.Flag(suspend)
    && "inflate_history" in params && params["inflate_history"] == C.Flag(inflate)
    && "inflate_rate" in params && params["inflate_rate"] == C.Whole(rate)
  }

  lemma ModePlans(f: System, r: string, suspend: bool, inflate: bool, rate: int)
    requires Enabled(f.control.scenarios, C.ENTITY_HISTORY)
    requires HasMode(f.control.scenarios[C.ENTITY_HISTORY].params, r, suspend, inflate, rate)
    ensures PlansTo(f, r, D.Degradation(suspend, inflate, rate))
  {
  }

  function Setting(signals: seq<C.Signal>, h: nat): Event {
    ControlMoves(C.Activation(signals, h))
  }

  /** End to end: set the scenario for any region, switches and rate, on any fleet
      with an idle relay; one full tick that arrives has told the region exactly
      that, and told the region it left to be healthy. */
  lemma AskedModeArrives(es: seq<Event>, h: nat, r: string, suspend: bool, inflate: bool, rate: int)
    requires Idle(Play(Initial(), es)) && r in Play(Initial(), es).regions && r in REGIONS
    ensures var f := Play(Initial(), es);
            var ask := C.SetScenario("entity_history", true, ModeParams(r, suspend, inflate, rate));
            var g := FinishTick(Next(Next(f, Setting([ask], h)), RelayWakes(true)));
            TickTells(f, g, r, D.Degradation(suspend, inflate, rate))
  {
    var f := Play(Initial(), es);
    var params := ModeParams(r, suspend, inflate, rate);
    var ask := C.SetScenario("entity_history", true, params);
    CS.CarryIsExact(C.DefaultScenarios(), 0);
    PlayKeepsComplete(Initial(), es);
    ControlHolds(f.control, [ask], h);
    FoldOne(f.control.scenarios, ask);
    var f1 := Next(f, Setting([ask], h));
    MergedHasMode(f.control.scenarios, r, suspend, inflate, rate);
    ModePlans(f1, r, suspend, inflate, rate);
    assert "" !in REGIONS;
    PlanTells(f1, r, D.Degradation(suspend, inflate, rate));
  }

  lemma MergedHasMode(state: C.Scenarios, r: string, suspend: bool, inflate: bool, rate: int)
    ensures var merged := C.Merge(state, "entity_history", true, ModeParams(r, suspend, inflate, rate));
            && Enabled(merged, C.ENTITY_HISTORY)
            && HasMode(merged[C.ENTITY_HISTORY].params, r, suspend, inflate, rate)
  {
  }

  /** Set with no parameters after a reset, the scenario degrades us-west: recycling
      suspended and history inflated at forty markers a turn. */
  lemma DefaultModeArrives(es: seq<Event>, h: nat)
    requires Idle(Play(Initial(), es)) && "us-west" in Play(Initial(), es).regions
    ensures var f := Play(Initial(), es);
            var ask := C.SetScenario("entity_history", true, map[]);
            var g := FinishTick(Next(Next(f, Setting([C.ResetAll, ask], h)), RelayWakes(true)));
            TickTells(f, g, "us-west", D.Degradation(true, true, 40))
  {
    var f := Play(Initial(), es);
    var ask := C.SetScenario("entity_history", true, map[]);
    CS.CarryIsExact(C.DefaultScenarios(), 0);
    PlayKeepsComplete(Initial(), es);
    ControlHolds(f.control, [C.ResetAll, ask], h);
    ResetThenSet(f.control.scenarios, ask);
    var f1 := Next(f, Setting([C.ResetAll, ask], h));
    ModePlans(f1, "us-west", true, true, 40);
    PlanTells(f1, "us-west", D.Degradation(true, true, 40));
  }

  lemma ResetThenSet(state: C.Scenarios, ask: C.Signal)
    requires ask == C.SetScenario("entity_history", true, map[])
    ensures var after := C.Fold(state, [C.ResetAll, ask]);
            && Enabled(after, C.ENTITY_HISTORY)
            && HasMode(after[C.ENTITY_HISTORY].params, "us-west", true, true, 40)
  {
    assert [C.ResetAll, ask][..1] == [C.ResetAll];
    FoldOne(state, C.ResetAll);
    assert C.Fold(state, [C.ResetAll, ask]) == C.Apply(C.DefaultScenarios(), ask);
  }

  // ----- a rate that is no number

  /** A tick that finds a rate `int` refuses still resets the region it leaves before
      it raises; it tells nobody else anything and remembers what it did before. */
  lemma BadRateStillResets(f: System, r: string)
    requires Idle(f) && BadRate(f.control.scenarios) && r != ""
    requires Get(ParamsOf(f.control.scenarios, C.ENTITY_HISTORY), "region", C.Text("us-west")) == C.Text(r)
    ensures var g := FinishTick(Next(f, RelayWakes(true)));
            var gone := RegionName(f.relay.degraded);
            && g.relay.stopped && g.relay.degraded == f.relay.degraded && g.regions.Keys == f.regions.Keys
            && (gone !in {"", r} && gone in g.regions ==> Mode(g.regions[gone]) == D.Degradation(false, false, 40))
            && forall x :: x in f.regions && (x != gone || x == r) && x != "" ==> g.regions[x] == f.regions[x]
  {
    var f1 := Next(f, RelayWakes(true));
    NamedIsTruthy(f.relay.degraded);
    if f1.relay.todo != [] {
      AcceptSetsMode(f1.regions, f1.relay.todo[0]);
      assert f1.relay.todo[1..] == [];
      assert FinishTick(f1) == Next(f1, RelaySends(true));
    }
  }
}
