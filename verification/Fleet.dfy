/**
 The regions, the control entity and the relay between them, one event at a time.
 A tick of the relay is a refresh followed by its signals one by one, so every
 other event may fall between any two of them. A signal the server accepted waits
 in its region's mailbox until the region handles it, in the order accepted.
 */
module Fleet {
  import opened Names
  import opened Wrappers
  import D = DispatchModel
  import L = DispatchLedger
  import S = DispatchSafety
  import R = DispatchRecovery
  import C = ControlModel
  import CS = ControlSafety
  import opened Relay

  /** `accepted` are the modes signalled and not yet handled. */
  datatype Region = Region(machine: D.Machine, accepted: seq<D.Degradation>)

  /** `todo` are the signals of the tick under way; when the last is sent, `next`
      is what is remembered as degraded. `stopped` once the generator has ended. */
  datatype RelayState = RelayState(
    snapshot: C.Scenarios, degraded: C.Value, todo: seq<Send>, next: C.Value, raising: bool, stopped: bool)

  datatype System = System(regions: map<string, Region>, control: C.Core, relay: RelayState)

  datatype Event =
    | RegionMoves(region: string, activation: D.Activation)
    | Terminated(region: string)
    | KeptAlive
    | ControlMoves(signals: C.Activation)
    | RelayWakes(refreshed: bool)
    | RelaySends(delivered: bool)
    | GeneratorEnds

  function FreshRegion(region: string): Region {
    Region(D.Begin(D.Thresholds, D.FreshState(region)), [])
  }

  function Initial(): System {
    System(map r | r in REGIONS :: FreshRegion(r), C.Prologue(map[], 0),
           RelayState(map[], C.Null, [], C.Null, false, false))
  }

  /** `_safe_signal` to a region: lost if undelivered or if nobody is there. */
  function Accept(regions: map<string, Region>, s: Send): map<string, Region> {
    if s.region !in regions then regions
    else regions[s.region := regions[s.region].(accepted := regions[s.region].accepted + [s.degradation])]
  }

  function Settle(r: RelayState): RelayState {
    if r.todo == [] then r.(degraded := r.next, stopped := r.raising) else r
  }

  /** Only the relay signals degradations: those a region handles are the oldest
      in its mailbox. */
  predicate Deliverable(r: Region, a: D.Activation) {
    L.DegradationsIn(a.signals) <= r.accepted
  }

  function Handle(r: Region, a: D.Activation): Region
    requires Deliverable(r, a)
  {
    Region(D.Step(D.Thresholds, r.machine, a), r.accepted[|L.DegradationsIn(a.signals)|..])
  }

  function Next(f: System, e: Event): System {
    match e
    case RegionMoves(region, a) =>
      if region in f.regions && Deliverable(f.regions[region], a)
      then f.(regions := f.regions[region := Handle(f.regions[region], a)]) else f
    case Terminated(region) => f.(regions := f.regions - {region})
    case KeptAlive =>
      if f.relay.stopped then f else f.(regions := (map r | r in REGIONS :: FreshRegion(r)) + f.regions)
    case ControlMoves(a) => f.(control := C.Step(f.control, a))
    case RelayWakes(refreshed) =>
      if !Idle(f) then f
      else
        var snapshot := if refreshed then f.control.scenarios else f.relay.snapshot;
        var plan := PlanTick(snapshot, f.relay.degraded);
        f.(relay := Settle(RelayState(snapshot, f.relay.degraded, plan.sends, plan.remembered, plan.raises, false)))
    case RelaySends(delivered) =>
      if f.relay.todo == [] || f.relay.stopped then f
      else
        System(if delivered then Accept(f.regions, f.relay.todo[0]) else f.regions,
               f.control,
               Settle(f.relay.(todo := f.relay.todo[1..])))
    case GeneratorEnds => f.(relay := f.relay.(stopped := true))
  }

  function Play(f: System, es: seq<Event>): System
    decreases |es|
  {
    if es == [] then f else Play(Next(f, es[0]), es[1..])
  }

  predicate Idle(f: System) {
    f.relay.todo == [] && !f.relay.stopped
  }

  /** If the event sends a healing, it arrives; a degradation may be lost. */
  predicate HealingArrives(f: System, e: Event) {
    e.RelaySends? && f.relay.todo != [] && f.relay.todo[0].degradation.Status() == D.Healthy ==> e.delivered
  }

  predicate HealingsArrive(f: System, es: seq<Event>)
    decreases |es|
  {
    es == [] || (HealingArrives(f, es[0]) && HealingsArrive(Next(f, es[0]), es[1..]))
  }

  /** Every signal arrives. */
  predicate Reliable(es: seq<Event>) {
    forall i :: 0 <= i < |es| && es[i].RelaySends? ==> es[i].delivered
  }

  lemma {:induction false} ReliablyHeals(f: System, es: seq<Event>)
    requires Reliable(es)
    ensures HealingsArrive(f, es)
    decreases |es|
  {
    if es == [] {
    } else {
      ReliablyHeals(Next(f, es[0]), es[1..]);
    }
  }

  // ----- who may be degraded

  /** The mode last signalled to a region, handled or not. */
  function Mode(r: Region): D.Degradation {
    if r.accepted == [] then r.machine.core.degradation else r.accepted[|r.accepted| - 1]
  }

  predicate IsDegraded(r: Region) {
    Mode(r).Status() == D.Degraded
  }

  predicate RunsDegraded(r: Region) {
    r.machine.core.degradation.Status() == D.Degraded
  }

  /** The one region that may be degraded: the one remembered, or while signals
      are being sent the one about to be signalled. */
  function Suspect(r: RelayState): string {
    if r.todo == [] then RegionName(r.degraded) else r.todo[0].region
  }

  /** The relay's plan in progress: at most a reset, then at most one degradation,
      and what it will remember names the last region signalled. */
  predicate PlanInHand(r: RelayState) {
    && |r.todo| <= 2
    && (|r.todo| == 2 ==> r.todo[0].degradation == D.NO_DEGRADATION && !r.raising)
    && (r.todo != [] && r.todo[|r.todo| - 1].degradation.Status() == D.Degraded ==>
          r.todo[|r.todo| - 1].region == RegionName(r.next))
  }

  predicate OneDegraded(f: System) {
    && "" !in f.regions
    && (forall r :: r in f.regions && IsDegraded(f.regions[r]) ==> r == Suspect(f.relay))
    && PlanInHand(f.relay)
  }

  /** Parked regions have nothing to do. */
  predicate AllSound(f: System) {
    forall r :: r in f.regions ==> S.Sound(f.regions[r].machine)
  }

  lemma StepKeepsDegradation(m: D.Machine, a: D.Activation)
    ensures D.Step(D.Thresholds, m, a).core.degradation == L.LastDegradation(m.core.degradation, a.signals)
  {
    L.DeliverAppends(m.core.(history := a.history), a.signals);
  }

  /** Handling signals changes what a region runs in, not what it was last told. */
  lemma HandleKeepsMode(r: Region, a: D.Activation)
    requires Deliverable(r, a)
    ensures Mode(Handle(r, a)) == Mode(r)
  {
    StepKeepsDegradation(r.machine, a);
    L.LastOfDegradations(r.machine.core.degradation, a.signals);
  }

  lemma AcceptSetsMode(regions: map<string, Region>, s: Send)
    ensures Accept(regions, s).Keys == regions.Keys
    ensures forall r :: r in regions && r != s.region ==> Accept(regions, s)[r] == regions[r]
    ensures s.region in regions ==>
              && Mode(Accept(regions, s)[s.region]) == s.degradation
              && Accept(regions, s)[s.region].machine == regions[s.region].machine
  {
  }

  /** A region that has a name is one the relay takes for degraded. */
  lemma NamedIsTruthy(v: C.Value)
    ensures RegionName(v) != "" ==> Truthy(v)
  {
  }

  /** A new plan starts with the region remembered, if there is one. */
  lemma PlanStarts(r: RelayState, snapshot: C.Scenarios)
    ensures var plan := PlanTick(snapshot, r.degraded);
            var n := Settle(RelayState(snapshot, r.degraded, plan.sends, plan.remembered, plan.raises, false));
            PlanInHand(n) && (RegionName(r.degraded) != "" ==> Suspect(n) == RegionName(r.degraded))
  {
    NamedIsTruthy(r.degraded);
  }

  /** A degradation sent is the plan's last and will be remembered. */
  lemma PlanGoesOn(r: RelayState)
    requires PlanInHand(r) && r.todo != []
    ensures var n := Settle(r.(todo := r.todo[1..]));
            PlanInHand(n) && (r.todo[0].degradation.Status() == D.Degraded ==> Suspect(n) == r.todo[0].region)
  {
  }

  lemma WakeKeepsOne(f: System, refreshed: bool)
    requires OneDegraded(f)
    ensures OneDegraded(Next(f, RelayWakes(refreshed)))
  {
    PlanStarts(f.relay, if refreshed then f.control.scenarios else f.relay.snapshot);
  }

  lemma SendKeepsOne(f: System, delivered: bool)
    requires OneDegraded(f) && f.relay.todo != [] && !f.relay.stopped
    requires delivered || f.relay.todo[0].degradation.Status() == D.Degraded
    ensures OneDegraded(Next(f, RelaySends(delivered)))
  {
    PlanGoesOn(f.relay);
    AcceptSetsMode(f.regions, f.relay.todo[0]);
  }

  lemma MoveKeepsOne(f: System, region: string, a: D.Activation)
    requires OneDegraded(f)
    ensures OneDegraded(Next(f, RegionMoves(region, a)))
  {
    if region in f.regions && Deliverable(f.regions[region], a) {
      HandleKeepsMode(f.regions[region], a);
    }
  }

  lemma StartsKeepOne(f: System)
    requires OneDegraded(f)
    ensures OneDegraded(Next(f, KeptAlive))
  {
    assert "" !in REGIONS;
  }

  lemma NextKeepsOne(f: System, e: Event)
    requires OneDegraded(f) && HealingArrives(f, e)
    ensures OneDegraded(Next(f, e))
  {
    match e {
      case RegionMoves(region, a) => MoveKeepsOne(f, region, a);
      case KeptAlive => StartsKeepOne(f);
      case RelayWakes(refreshed) => WakeKeepsOne(f, refreshed);
      case RelaySends(delivered) =>
        if f.relay.todo != [] && !f.relay.stopped {
          SendKeepsOne(f, delivered);
        }
      case _ =>
    }
  }

  lemma NextKeepsSound(f: System, e: Event)
    requires AllSound(f)
    ensures AllSound(Next(f, e))
  {
    match e {
      case RegionMoves(region, a) =>
        if region in f.regions {
          S.StepSound(f.regions[region].machine, a);
        }
      case RelaySends(_) =>
        if f.relay.todo != [] {
          AcceptSetsMode(f.regions, f.relay.todo[0]);
        }
      case _ =>
    }
  }

  lemma {:induction false} PlayKeepsSound(f: System, es: seq<Event>)
    requires AllSound(f)
    ensures AllSound(Play(f, es))
    decreases |es|
  {
    if es == [] {
    } else {
      NextKeepsSound(f, es[0]);
      PlayKeepsSound(Next(f, es[0]), es[1..]);
    }
  }

  lemma InitialIsSound()
    ensures OneDegraded(Initial()) && AllSound(Initial())
  {
    assert "" !in REGIONS;
  }

  lemma {:induction false} PlayKeepsOne(f: System, es: seq<Event>)
    requires OneDegraded(f) && HealingsArrive(f, es)
    ensures OneDegraded(Play(f, es))
    decreases |es|
  {
    if es == [] {
    } else {
      NextKeepsOne(f, es[0]);
      PlayKeepsOne(Next(f, es[0]), es[1..]);
    }
  }

  /** As long as healings arrive, at most one region has last been told to degrade,
      between any two signals of a tick, whatever is set, terminated or restarted
      meanwhile and however many degradations are lost: the remembered one, or the one the relay is about to signal. Any
      other region still running degraded has its healing in its mailbox. */
  lemma AtMostOneRegionDegraded(es: seq<Event>, r: string)
    requires HealingsArrive(Initial(), es) && r in Play(Initial(), es).regions
    ensures var f := Play(Initial(), es);
            && (IsDegraded(f.regions[r]) ==> r == Suspect(f.relay))
            && (RunsDegraded(f.regions[r]) && r != Suspect(f.relay) ==>
                  && f.regions[r].accepted != []
                  && f.regions[r].accepted[|f.regions[r].accepted| - 1].Status() == D.Healthy)
  {
    InitialIsSound();
    PlayKeepsOne(Initial(), es);
  }

  // ----- reset to green

  predicate Off(f: System) {
    !Enabled(f.control.scenarios, C.ENTITY_HISTORY)
  }

  /** The scenario is off, and after every one of the events it still is. */
  predicate StaysOff(f: System, es: seq<Event>)
    decreases |es|
  {
    Off(f) && (es == [] || StaysOff(Next(f, es[0]), es[1..]))
  }

  /** Among the events an idle relay starts a tick and its refresh succeeds. */
  predicate FreshTick(f: System, es: seq<Event>)
    decreases |es|
  {
    es != [] && ((Idle(f) && es[0] == RelayWakes(true)) || FreshTick(Next(f, es[0]), es[1..]))
  }

  lemma ResetDisables(control: C.Core, h: nat)
    ensures !Enabled(C.Step(control, C.Activation([C.ResetAll], h)).scenarios, C.ENTITY_HISTORY)
  {
    assert [C.ResetAll][..0] == [];
    assert C.Fold(control.scenarios, [C.ResetAll]) == C.DefaultScenarios();
    CS.CarryIsExact(C.DefaultScenarios(), control.runs + 1);
  }

  /** The relay has seen the scenario off: it resets whom it remembers, and then
      remembers nobody. */
  predicate Clearing(f: System) {
    && OneDegraded(f) && Off(f)
    && !Enabled(f.relay.snapshot, C.ENTITY_HISTORY)
    && if f.relay.todo == [] then !Truthy(f.relay.degraded)
       else
         && |f.relay.todo| == 1 && f.relay.todo[0].degradation == D.NO_DEGRADATION
         && f.relay.next == C.Null && !f.relay.raising
  }

  lemma TickStartsClearing(f: System)
    requires OneDegraded(f) && Off(f) && Idle(f)
    ensures Clearing(Next(f, RelayWakes(true)))
  {
    WakeKeepsOne(f, true);
  }

  lemma NextKeepsClearing(f: System, e: Event)
    requires Clearing(f) && Off(Next(f, e)) && HealingArrives(f, e)
    ensures Clearing(Next(f, e))
    ensures f.relay.todo == [] ==> Next(f, e).relay.todo == []
  {
    NextKeepsOne(f, e);
  }

  lemma {:induction false} PlayKeepsClearing(f: System, es: seq<Event>)
    requires Clearing(f) && StaysOff(f, es) && HealingsArrive(f, es)
    ensures Clearing(Play(f, es))
    decreases |es|
  {
    if es == [] {
    } else {
      NextKeepsClearing(f, es[0]);
      PlayKeepsClearing(Next(f, es[0]), es[1..]);
    }
  }

  lemma {:induction false} FreshTickClears(f: System, es: seq<Event>)
    requires OneDegraded(f) && StaysOff(f, es) && HealingsArrive(f, es) && FreshTick(f, es)
    ensures Clearing(Play(f, es))
    decreases |es|
  {
    var n := Next(f, es[0]);
    NextKeepsOne(f, es[0]);
    if Idle(f) && es[0] == RelayWakes(true) {
      TickStartsClearing(f);
      PlayKeepsClearing(n, es[1..]);
    } else {
      FreshTickClears(n, es[1..]);
    }
  }

  /** Once the clearing tick is sent out, no region was last told to degrade. */
  lemma ClearedIsHealthy(f: System, r: string)
    requires Clearing(f) && f.relay.todo == [] && r in f.regions
    ensures !IsDegraded(f.regions[r])
  {
    NamedIsTruthy(f.relay.degraded);
  }

  /** The activations a region with an empty mailbox gets out of the events. */
  function Moves(region: string, es: seq<Event>): seq<D.Activation>
    decreases |es|
  {
    if es == [] then []
    else
      (if IsMove(es[0], region) then [es[0].activation] else []) + Moves(region, es[1..])
  }

  predicate IsMove(e: Event, region: string) {
    e.RegionMoves? && e.region == region && L.DegradationsIn(e.activation.signals) == []
  }

  /** A region with an empty mailbox follows its own activations and no others. */
  lemma RegionFollowsMoves(f: System, e: Event, region: string)
    requires Clearing(f) && f.relay.todo == [] && e != Terminated(region)
    requires region in f.regions && f.regions[region].accepted == []
    ensures var r := f.regions[region];
            && region in Next(f, e).regions
            && Next(f, e).regions[region] ==
               if IsMove(e, region) then Region(D.Step(D.Thresholds, r.machine, e.activation), []) else r
  {
  }

  predicate Healed(f: System, n: System, region: string) {
    && region in f.regions && region in n.regions
    && R.Green(n.regions[region].machine)
    && R.Recyclings(n.regions[region].machine.core.out) <= R.Recyclings(f.regions[region].machine.core.out) + 1
  }

  /** The completions still needed: those of the work at hand and the orders to come. */
  predicate EnoughMoves(m: D.Machine, moves: seq<D.Activation>) {
    R.Completions(moves) >= R.Work(m) + 2 * |L.OrdersOf(moves)|
  }

  /** One move closer to green. */
  lemma MoveCloser(m: D.Machine, moves: seq<D.Activation>)
    requires m.core.degradation.Status() == D.Healthy && !m.at.Wait?
    requires moves != [] && L.DegradationsIn(moves[0].signals) == [] && EnoughMoves(m, moves)
    ensures var n := D.Step(D.Thresholds, m, moves[0]);
            && R.Recyclings(n.core.out) <= R.Recyclings(m.core.out) + 1
            && if n.at.Wait? then R.Green(n)
               else EnoughMoves(n, moves[1..]) && R.Recyclings(n.core.out) == R.Recyclings(m.core.out)
  {
    R.HealthyStep(m, moves[0]);
  }

  /** A cleared fleet in which the region has handled its mailbox. */
  predicate CaughtUp(f: System, region: string) {
    && Clearing(f) && f.relay.todo == [] && region in f.regions && f.regions[region].accepted == []
    && S.Sound(f.regions[region].machine)
  }

  lemma EventKeepsCaughtUp(f: System, e: Event, region: string)
    requires CaughtUp(f, region) && e != Terminated(region) && Off(Next(f, e))
    ensures CaughtUp(Next(f, e), region)
  {
    NextKeepsClearing(f, e);
    RegionFollowsMoves(f, e, region);
    if IsMove(e, region) {
      S.StepSound(f.regions[region].machine, e.activation);
    }
  }

  lemma EventCloser(f: System, region: string, es: seq<Event>)
    requires CaughtUp(f, region) && es != [] && es[0] != Terminated(region)
    requires !f.regions[region].machine.at.Wait?
    requires EnoughMoves(f.regions[region].machine, Moves(region, es))
    ensures var n := Next(f, es[0]);
            && region in n.regions
            && var m, m' := f.regions[region].machine, n.regions[region].machine;
               && R.Recyclings(m'.core.out) <= R.Recyclings(m.core.out) + 1
               && if m'.at.Wait? then R.Green(m')
                  else EnoughMoves(m', Moves(region, es[1..]))
                       && R.Recyclings(m'.core.out) == R.Recyclings(m.core.out)
  {
    ClearedIsHealthy(f, region);
    RegionFollowsMoves(f, es[0], region);
    var rest := Moves(region, es[1..]);
    if IsMove(es[0], region) {
      assert Moves(region, es)[0] == es[0].activation && Moves(region, es)[1..] == rest;
      MoveCloser(f.regions[region].machine, Moves(region, es));
    } else {
      assert Moves(region, es) == rest;
    }
  }

  lemma ParkedIsGreen(f: System, region: string)
    requires CaughtUp(f, region) && f.regions[region].machine.at.Wait?
    ensures R.Green(f.regions[region].machine)
  {
    ClearedIsHealthy(f, region);
  }

  lemma {:induction false} RegionHeals(f: System, region: string, es: seq<Event>) returns (k: nat)
    requires CaughtUp(f, region) && StaysOff(f, es)
    requires EnoughMoves(f.regions[region].machine, Moves(region, es))
    ensures k <= |es|
    ensures Healed(f, Play(f, es[..k]), region) || (k > 0 && es[k - 1] == Terminated(region))
    decreases |es|
  {
    if f.regions[region].machine.at.Wait? {
      ParkedIsGreen(f, region);
      k := 0;
    } else if es[0] == Terminated(region) {
      k := 1;
    } else {
      var n := Next(f, es[0]);
      EventKeepsCaughtUp(f, es[0], region);
      EventCloser(f, region, es);
      if n.regions[region].machine.at.Wait? {
        k := 1;
        assert Play(f, es[..1]) == Play(n, []) by {
          assert es[..1][1..] == [];
        }
      } else {
        k := RegionHeals(n, region, es[1..]);
        k := k + 1;
        assert Play(f, es[..k]) == Play(n, es[1..][..k - 1]) by {
          assert es[..k][1..] == es[1..][..k - 1];
        }
      }
    }
  }

  function AfterReset(history: seq<Event>, h: nat): System {
    Next(Play(Initial(), history), ControlMoves(C.Activation([C.ResetAll], h)))
  }

  lemma ResetKeeps(history: seq<Event>, h: nat)
    requires HealingsArrive(Initial(), history)
    ensures OneDegraded(AfterReset(history, h)) && AllSound(AfterReset(history, h))
  {
    InitialIsSound();
    PlayKeepsOne(Initial(), history);
    PlayKeepsSound(Initial(), history);
  }

  /** Reset to green, end to end. From any fleet reached with no healing lost,
      press `reset_all`, in the middle of a tick or not, and let anything happen
      that leaves the scenario off while the relay finishes what it was sending
      and then one fresh tick. Whichever region has then handled its mailbox is
      within its work, counting orders that still come, of being green: parked,
      healthy, shown healthy, within both thresholds, having continued as new at
      most once; or it was terminated on the way. */
  lemma {:induction false} ResetToGreen(history: seq<Event>, h: nat, es: seq<Event>, rest: seq<Event>, region: string)
    returns (k: nat)
    requires HealingsArrive(Initial(), history) && HealingsArrive(AfterReset(history, h), es)
    requires var f := AfterReset(history, h);
             FreshTick(f, es) && StaysOff(f, es) && StaysOff(Play(f, es), rest)
    requires var g := Play(AfterReset(history, h), es);
             && g.relay.todo == [] && region in g.regions && g.regions[region].accepted == []
             && EnoughMoves(g.regions[region].machine, Moves(region, rest))
    ensures k <= |rest|
    ensures var g := Play(AfterReset(history, h), es);
            Healed(g, Play(g, rest[..k]), region) || (k > 0 && rest[k - 1] == Terminated(region))
  {
    ResetKeeps(history, h);
    FreshTickClears(AfterReset(history, h), es);
    PlayKeepsSound(AfterReset(history, h), es);
    k := RegionHeals(Play(AfterReset(history, h), es), region, rest);
  }

  // ----- a tick that degrades

  function FinishTick(f: System): System
    decreases |f.relay.todo|
  {
    if f.relay.todo == [] || f.relay.stopped then f else FinishTick(Next(f, RelaySends(true)))
  }

  lemma {:induction false} FinishingSettles(f: System)
    requires f.relay.todo != [] && !f.relay.stopped
    ensures FinishTick(f).relay == Settle(f.relay.(todo := []))
    decreases |f.relay.todo|
  {
    var n := Next(f, RelaySends(true));
    if |f.relay.todo| == 1 {
      assert f.relay.todo[1..] == [];
    } else {
      FinishingSettles(n);
    }
  }

  /** Sent out signal by signal, a tick sends what the generator's own tick adds to
      its record, and leaves the relay where that leaves it. */
  lemma TickIsRelayTick(f: System, refreshed: bool, sent: seq<Send>)
    requires Idle(f)
    ensures var n := Next(f, RelayWakes(refreshed));
            var r := FinishTick(n).relay;
            var t := Tick(State(f.relay.snapshot, f.relay.degraded, sent, false),
                          if refreshed then Some(f.control.scenarios) else None);
            && t.sent == sent + n.relay.todo && r.todo == []
            && r.snapshot == t.scenarios && r.degraded == t.degraded && r.stopped == t.stopped
  {
    var n := Next(f, RelayWakes(refreshed));
    if n.relay.todo != [] {
      FinishingSettles(n);
    }
  }

  lemma SignalArrives(f: System)
    requires |f.relay.todo| == 1 && !f.relay.stopped && f.relay.todo[0].region in f.regions
    ensures var g := FinishTick(f);
            && f.relay.todo[0].region in g.regions
            && Mode(g.regions[f.relay.todo[0].region]) == f.relay.todo[0].degradation
            && g.relay.todo == [] && g.relay.degraded == f.relay.next
  {
    AcceptSetsMode(f.regions, f.relay.todo[0]);
    var g := Next(f, RelaySends(true));
    assert g.relay.todo == [];
  }

  /** While the scenario is on, a full reliable tick tells the named region, and
      by `AtMostOneRegionDegraded` no other, the mode the parameters ask for. */
  lemma EnabledTickDegrades(f: System, name: string, rate: int)
    requires Idle(f) && name in f.regions
    requires Enabled(f.control.scenarios, C.ENTITY_HISTORY)
    requires var params := ParamsOf(f.control.scenarios, C.ENTITY_HISTORY);
             && Get(params, "region", C.Text("us-west")) == C.Text(name)
             && ToInt(Get(params, "inflate_rate", C.Whole(40))) == Some(rate)
    ensures var g := FinishTick(Next(f, RelayWakes(true)));
            var params := ParamsOf(f.control.scenarios, C.ENTITY_HISTORY);
            && name in g.regions
            && Mode(g.regions[name]) ==
               D.Degradation(Truthy(Get(params, "suspend_can", C.Flag(true))),
                             Truthy(Get(params, "inflate_history", C.Flag(true))), rate)
            && g.relay.todo == [] && g.relay.degraded == C.Text(name)
  {
    var f1 := Next(f, RelayWakes(true));
    if |f1.relay.todo| == 1 {
      SignalArrives(f1);
    } else {
      var f2 := Next(f1, RelaySends(true));
      assert f2.relay.todo == f1.relay.todo[1..];
      SignalArrives(f2);
      assert FinishTick(f1) == FinishTick(f2);
    }
  }

  // ----- a lost reset

  /** The tick that turns the scenario off heals the fleet exactly if its signal
      arrives, or nobody was left to heal. */
  lemma ClearingTickHealsIff(f: System, delivered: bool)
    requires OneDegraded(f) && f.relay.todo == [Reset(f.relay.degraded)] && f.relay.next == C.Null
    requires !f.relay.stopped
    ensures var g := Next(f, RelaySends(delivered));
            (forall r :: r in g.regions ==> !IsDegraded(g.regions[r])) <==>
              delivered || !(Suspect(f.relay) in f.regions && IsDegraded(f.regions[Suspect(f.relay)]))
  {
    var s := Suspect(f.relay);
    if delivered {
      SendKeepsOne(f, delivered);
      AcceptSetsMode(f.regions, f.relay.todo[0]);
    } else if s in f.regions && IsDegraded(f.regions[s]) {
      assert IsDegraded(Next(f, RelaySends(delivered)).regions[s]);
    }
  }

  /** The signal that leaves one region for another keeps at most one degraded
      exactly if it arrives, or the region it leaves was not degraded. */
  lemma MovingResetHealsIff(f: System, delivered: bool)
    requires OneDegraded(f) && !f.relay.stopped
    requires |f.relay.todo| == 2 && f.relay.todo[0].region != f.relay.todo[1].region
    ensures OneDegraded(Next(f, RelaySends(delivered))) <==>
              delivered || !(Suspect(f.relay) in f.regions && IsDegraded(f.regions[Suspect(f.relay)]))
  {
    var s, n := Suspect(f.relay), Next(f, RelaySends(delivered));
    PlanGoesOn(f.relay);
    if delivered {
      SendKeepsOne(f, delivered);
    } else if s in f.regions && IsDegraded(f.regions[s]) {
      assert IsDegraded(n.regions[s]) && s != Suspect(n.relay);
    }
  }

  predicate Spares(es: seq<Event>, region: string) {
    forall i :: 0 <= i < |es| ==> es[i] != Terminated(region)
  }

  /** The scenario is on for this region. */
  predicate Asks(scenarios: C.Scenarios, region: string) {
    && Enabled(scenarios, C.ENTITY_HISTORY)
    && RegionName(Get(ParamsOf(scenarios, C.ENTITY_HISTORY), "region", C.Text("us-west"))) == region
  }

  /** Neither before the events nor after any of them does the control entity ask
      for this region; it may ask for others. */
  predicate NeverAsked(f: System, es: seq<Event>, region: string)
    decreases |es|
  {
    !Asks(f.control.scenarios, region) && (es == [] || NeverAsked(Next(f, es[0]), es[1..], region))
  }

  /** A degraded region that the relay does not remember, is not about to signal
      or remember, and has not been asked for. */
  predicate Stray(f: System, region: string) {
    && region != "" && region in f.regions && IsDegraded(f.regions[region])
    && RegionName(f.relay.degraded) != region && !Asks(f.relay.snapshot, region)
    && (forall i :: 0 <= i < |f.relay.todo| ==> f.relay.todo[i].region != region)
    && (f.relay.todo != [] ==> RegionName(f.relay.next) != region)
  }

  /** A relay that remembers nobody while a region is degraded. */
  predicate Forgotten(f: System, region: string) {
    && region != "" && region in f.regions && IsDegraded(f.regions[region])
    && f.relay.todo == [] && !Truthy(f.relay.degraded)
    && !Enabled(f.relay.snapshot, C.ENTITY_HISTORY)
  }

  lemma ForgottenIsStray(f: System, region: string)
    requires Forgotten(f, region)
    ensures Stray(f, region)
  {
    NamedIsTruthy(f.relay.degraded);
  }

  lemma NextKeepsRegionMode(f: System, e: Event, region: string)
    requires region in f.regions && e != Terminated(region)
    requires f.relay.todo == [] || f.relay.stopped
    ensures region in Next(f, e).regions && Mode(Next(f, e).regions[region]) == Mode(f.regions[region])
  {
    if e.RegionMoves? && e.region in f.regions && Deliverable(f.regions[e.region], e.activation) {
      HandleKeepsMode(f.regions[e.region], e.activation);
    }
  }

  /** A plan concerns only the region remembered and the region asked for. */
  lemma PlanPassesBy(snapshot: C.Scenarios, degraded: C.Value, region: string)
    requires region != "" && RegionName(degraded) != region && !Asks(snapshot, region)
    ensures var plan := PlanTick(snapshot, degraded);
            && RegionName(plan.remembered) != region
            && forall i :: 0 <= i < |plan.sends| ==> plan.sends[i].region != region
  {
  }

  lemma WakeKeepsStray(f: System, refreshed: bool, region: string)
    requires Stray(f, region) && !Asks(f.control.scenarios, region)
    ensures Stray(Next(f, RelayWakes(refreshed)), region)
  {
    PlanPassesBy(if refreshed then f.control.scenarios else f.relay.snapshot, f.relay.degraded, region);
  }

  lemma SendKeepsStray(f: System, delivered: bool, region: string)
    requires Stray(f, region)
    ensures Stray(Next(f, RelaySends(delivered)), region)
  {
    if f.relay.todo != [] {
      AcceptSetsMode(f.regions, f.relay.todo[0]);
    }
  }

  lemma NextKeepsStray(f: System, e: Event, region: string)
    requires Stray(f, region) && !Asks(f.control.scenarios, region) && e != Terminated(region)
    ensures Stray(Next(f, e), region)
  {
    match e {
      case RegionMoves(r, a) =>
        if r in f.regions && Deliverable(f.regions[r], a) {
          HandleKeepsMode(f.regions[r], a);
        }
      case RelayWakes(refreshed) => WakeKeepsStray(f, refreshed, region);
      case RelaySends(delivered) => SendKeepsStray(f, delivered, region);
      case _ =>
    }
  }

  /** A lost reset is not retried, whether it was to clear the fleet or to move on
      to another region: until the scenario is set on for that very region, nothing
      heals it short of terminating it, neither a tick, nor `reset_all`, nor the
      scenario for other regions, nor any other scenario. */
  lemma {:induction false} LostResetIsNeverRetried(f: System, region: string, es: seq<Event>)
    requires Stray(f, region) && NeverAsked(f, es, region) && Spares(es, region)
    ensures Stray(Play(f, es), region)
    decreases |es|
  {
    if es == [] {
    } else {
      NextKeepsStray(f, es[0], region);
      LostResetIsNeverRetried(Next(f, es[0]), region, es[1..]);
    }
  }

  /** Once the generator has ended nobody heals a degraded region, whatever the
      control entity is told. */
  lemma {:induction false} EndedGeneratorHealsNobody(f: System, region: string, es: seq<Event>)
    requires f.relay.stopped && region in f.regions && IsDegraded(f.regions[region])
    requires Spares(es, region)
    ensures var g := Play(f, es);
            g.relay.stopped && region in g.regions && IsDegraded(g.regions[region])
    decreases |es|
  {
    if es == [] {
    } else {
      NextKeepsRegionMode(f, es[0], region);
      EndedGeneratorHealsNobody(Next(f, es[0]), region, es[1..]);
    }
  }
}
