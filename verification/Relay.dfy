/** What one tick of the generator's control loop sends, and what it remembers. */
module Relay {
  import opened Numerals
  import opened Wrappers
  import opened ControlModel
  import D = DispatchModel

  /** Python truthiness of a parameter. */
  function Truthy(v: Value): bool {
    match v
    case Null => false
    case Flag(b) => b
    case Whole(i) => i != 0
    case Number(x) => x != 0.0
    case Text(s) => s != ""
  }

  /** `int(...)`: truncates a number, reads a numeral, and raises on null and on
      any other text. */
  function ToInt(v: Value): Option<int> {
    match v
    case Null => None
    case Flag(b) => Some(if b then 1 else 0)
    case Whole(i) => Some(i)
    case Number(x) => Some(if x >= 0.0 then x.Floor else -(-x).Floor)
    case Text(s) => ReadInt(s)
  }

  function Get(params: Params, key: string, default: Value): Value {
    if key in params then params[key] else default
  }

  function Enabled(scenarios: Scenarios, name: string): bool {
    name in scenarios && scenarios[name].enabled
  }

  function ParamsOf(scenarios: Scenarios, name: string): Params {
    if name in scenarios then scenarios[name].params else map[]
  }

  /** The region a parameter names; only text names one. */
  function RegionName(v: Value): string {
    if v.Text? then v.s else ""
  }

  datatype Send = Send(region: string, degradation: D.Degradation)

  /** The signals of one tick, in order, then what is remembered as degraded. A
      rate that `int` refuses raises after the first reset; nothing catches it, so
      it ends the whole generator. */
  datatype Plan = Plan(sends: seq<Send>, remembered: Value, raises: bool)

  function Reset(v: Value): Send {
    Send(RegionName(v), D.NO_DEGRADATION)
  }

  function PlanTick(scenarios: Scenarios, degraded: Value): Plan {
    if Enabled(scenarios, ENTITY_HISTORY) then
      var params := ParamsOf(scenarios, ENTITY_HISTORY);
      var region := Get(params, "region", Text("us-west"));
      var resets := if Truthy(degraded) && degraded != region then [Reset(degraded)] else [];
      match ToInt(Get(params, "inflate_rate", Whole(40)))
      case None => Plan(resets, degraded, true)
      case Some(rate) =>
        var d := D.Degradation(Truthy(Get(params, "suspend_can", Flag(true))),
                               Truthy(Get(params, "inflate_history", Flag(true))), rate);
        Plan(resets + [Send(RegionName(region), d)], region, false)
    else if Truthy(degraded) then Plan([Reset(degraded)], Null, false)
    else Plan([], degraded, false)
  }

  /** The control loop over a run of ticks; a failed refresh keeps the snapshot. */
  datatype State = State(scenarios: Scenarios, degraded: Value, sent: seq<Send>, stopped: bool)

  function Tick(s: State, refreshed: Option<Scenarios>): State {
    if s.stopped then s
    else
      var scenarios := refreshed.GetOr(s.scenarios);
      var plan := PlanTick(scenarios, s.degraded);
      State(scenarios, plan.remembered, s.sent + plan.sends, plan.raises)
  }

  function Ticks(s: State, refreshes: seq<Option<Scenarios>>): State
    decreases |refreshes|
  {
    if refreshes == [] then s
    else Tick(Ticks(s, refreshes[..|refreshes| - 1]), refreshes[|refreshes| - 1])
  }

  // ----- what a parameter means

  /** Only null, false, zero and empty text are false. */
  lemma TruthyExactly(v: Value)
    ensures Truthy(v) <==> v !in {Null, Flag(false), Whole(0), Number(0.0), Text("")}
  {
  }

  /** A fraction is cut off towards zero; whole numbers, flags and numerals count as
      they are. */
  lemma NumbersTruncate(x: real, i: int, b: bool, n: nat)
    ensures ToInt(Whole(i)) == Some(i)
    ensures ToInt(Flag(true)) == Some(1) && ToInt(Flag(false)) == Some(0)
    ensures |Print(n)| <= 4300 ==> ToInt(Text(Print(n))) == Some(n)
    ensures ToInt(Number(x)).Some?
    ensures var n := ToInt(Number(x)).value;
            if x >= 0.0 then n as real <= x < n as real + 1.0 else n as real - 1.0 < x <= n as real
  {
    if |Print(n)| <= 4300 {
      ReadPrint(n);
    }
  }

  /** Null is no number, and neither is text with anything in it but digits, signs,
      underscores and white space, or without a digit. */
  lemma WhatIsNoNumber(s: string, k: nat)
    ensures ToInt(Null).None?
    ensures k < |s| && !IsDigit(s[k]) && !IsSpace(s[k]) && s[k] !in {'-', '+', '_'} ==> ToInt(Text(s)).None?
    ensures (forall i :: 0 <= i < |s| ==> !IsDigit(s[i])) ==> ToInt(Text(s)).None?
  {
    if ToInt(Text(s)).Some? {
      ReadIntReads(s);
    }
  }

  // ----- when the generator ends

  /** The snapshot a tick works on: the last refresh that succeeded. */
  function Latest(scenarios: Scenarios, refreshes: seq<Option<Scenarios>>): Scenarios
    decreases |refreshes|
  {
    if refreshes == [] then scenarios
    else refreshes[|refreshes| - 1].GetOr(Latest(scenarios, refreshes[..|refreshes| - 1]))
  }

  predicate BadRate(scenarios: Scenarios) {
    && Enabled(scenarios, ENTITY_HISTORY)
    && ToInt(Get(ParamsOf(scenarios, ENTITY_HISTORY), "inflate_rate", Whole(40))).None?
  }

  /** The tick finds the scenario on with a rate that `int` refuses. */
  predicate BadTick(scenarios: Scenarios, refreshes: seq<Option<Scenarios>>, i: nat)
    requires i < |refreshes|
  {
    BadRate(Latest(scenarios, refreshes[..i + 1]))
  }

  /** The control loop raises, and the generator ends with it, if and only if some
      tick finds the scenario on with a rate that `int` refuses. */
  lemma {:induction false} StopsExactlyOnBadRate(s: State, refreshes: seq<Option<Scenarios>>)
    requires !s.stopped
    ensures Ticks(s, refreshes).stopped <==>
            exists i :: 0 <= i < |refreshes| && BadTick(s.scenarios, refreshes, i)
    ensures !Ticks(s, refreshes).stopped ==> Ticks(s, refreshes).scenarios == Latest(s.scenarios, refreshes)
    decreases |refreshes|
  {
    if refreshes == [] {
    } else {
      var n := |refreshes| - 1;
      var earlier := refreshes[..n];
      StopsExactlyOnBadRate(s, earlier);
      assert BadTick(s.scenarios, refreshes, n) == BadRate(Latest(s.scenarios, refreshes)) by {
        assert refreshes[..n + 1] == refreshes;
      }
      forall i | 0 <= i < n
        ensures BadTick(s.scenarios, earlier, i) == BadTick(s.scenarios, refreshes, i)
      {
        assert earlier[..i + 1] == refreshes[..i + 1];
      }
    }
  }
}
