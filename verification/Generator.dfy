/** The generator object: the loops that relay control state and rotate couriers. */
module GeneratorEntity {
  import opened Wrappers
  import opened ControlModel
  import D = DispatchModel
  import Relay
  import Rotation

  class Generator {
    var scenarios: Scenarios
    var couriers: seq<Rotation.Shift>
    var courierSeq: nat
    var degradedRegion: Value

    // Signals handed to the client, in order.
    var degradations: seq<Relay.Send>
    var ended: seq<Rotation.Shift>
    var courierSignals: seq<Rotation.Signal>
    ghost var lost: nat

    constructor ()
      ensures scenarios == map[] && degradedRegion == Null && degradations == []
      ensures Rota() == Rotation.EMPTY_ROTA
    {
      scenarios, degradedRegion, degradations := map[], Null, [];
      couriers, courierSeq, ended, courierSignals, lost := [], 0, [], [], 0;
    }

    ghost function Rota(): Rotation.Rota
      reads this
    {
      Rotation.Rota(couriers, courierSeq, ended, lost, courierSignals)
    }

    // ----- control relay

    function RelayState(stopped: bool): Relay.State
      reads this
    {
      Relay.State(scenarios, degradedRegion, degradations, stopped)
    }

    method SafeSignal(region: string, d: D.Degradation)
      modifies this`degradations
      ensures degradations == old(degradations) + [Relay.Send(region, d)]
    {
      degradations := degradations + [Relay.Send(region, d)];
    }

    method ResetRegion(region: Value)
      modifies this`degradations
      ensures degradations == old(degradations) + [Relay.Reset(region)]
    {
      SafeSignal(Relay.RegionName(region), D.NO_DEGRADATION);
    }

    /** One pass of `control_loop`. */
    method ControlTick(refreshed: Option<Scenarios>) returns (raised: bool)
      modifies this`scenarios, this`degradedRegion, this`degradations
      ensures RelayState(raised) == Relay.Tick(old(RelayState(false)), refreshed)
    {
      if refreshed.Some? {
        scenarios := refreshed.value;
      }
      if Relay.Enabled(scenarios, ENTITY_HISTORY) {
        var params := Relay.ParamsOf(scenarios, ENTITY_HISTORY);
        var region := Relay.Get(params, "region", Text("us-west"));
        if Relay.Truthy(degradedRegion) && degradedRegion != region {
          ResetRegion(degradedRegion);
        }
        var suspend := Relay.Truthy(Relay.Get(params, "suspend_can", Flag(true)));
        var inflate := Relay.Truthy(Relay.Get(params, "inflate_history", Flag(true)));
        var rate := Relay.ToInt(Relay.Get(params, "inflate_rate", Whole(40)));
        if rate.None? {
          return true;
        }
        SafeSignal(Relay.RegionName(region), D.Degradation(suspend, inflate, rate.value));
        degradedRegion := region;
      } else if Relay.Truthy(degradedRegion) {
        ResetRegion(degradedRegion);
        degradedRegion := Null;
      }
      return false;
    }

    method ControlLoop(refreshes: seq<Option<Scenarios>>) returns (raised: bool)
      modifies this`scenarios, this`degradedRegion, this`degradations
      ensures RelayState(raised) == Relay.Ticks(old(RelayState(false)), refreshes)
    {
      raised := false;
      var i := 0;
      while i < |refreshes|
        invariant 0 <= i <= |refreshes|
        invariant RelayState(raised) == Relay.Ticks(old(RelayState(false)), refreshes[..i])
      {
        if !raised {
          raised := ControlTick(refreshes[i]);
        }
        assert refreshes[..i + 1][..i] == refreshes[..i];
        i := i + 1;
      }
      assert refreshes[..|refreshes|] == refreshes;
    }

    // ----- courier rotation

    method StartCourier(s: Rotation.Start) returns (started: bool)
      modifies this`couriers, this`courierSeq
      ensures Rota() == Rotation.StartShift(old(Rota()), s)
      ensures started == !s.outcome.StartFailed?
    {
      courierSeq := courierSeq + 1;
      var cid := Rotation.Shift(courierSeq, s.suffix);
      match s.outcome {
        case Started =>
          couriers := couriers + [cid];
          started := true;
        case AlreadyStarted =>
          couriers := couriers + [cid];
          started := true;
        case StartFailed =>
          started := false;
      }
    }

    /** Brings the fleet up to size, as far as the given starts go. */
    method FillFleet(size: nat, starts: seq<Rotation.Start>)
      modifies this`couriers, this`courierSeq
      ensures Rota() == Rotation.Fill(old(Rota()), size, starts)
    {
      var i := 0;
      while |couriers| < size && i < |starts|
        invariant 0 <= i <= |starts|
        invariant Rotation.Fill(Rota(), size, starts[i..]) == Rotation.Fill(old(Rota()), size, starts)
        decreases |starts| - i
      {
        assert starts[i..][1..] == starts[i + 1..];
        var _ := StartCourier(starts[i]);
        i := i + 1;
      }
    }

    /** A position ping to every courier listed. */
    method PingCouriers()
      modifies this`courierSignals
      ensures courierSignals == old(courierSignals) + Rotation.Pings(couriers)
    {
      var i := 0;
      while i < |couriers|
        invariant 0 <= i <= |couriers|
        invariant courierSignals == old(courierSignals) + Rotation.Pings(couriers[..i])
      {
        courierSignals := courierSignals + [Rotation.Ping(couriers[i])];
        assert couriers[..i + 1][..i] == couriers[..i];
        i := i + 1;
      }
      assert couriers[..|couriers|] == couriers;
    }

    /** Tells the oldest courier to end and starts one replacement. */
    method ReplaceOldest(s: Rotation.Start)
      requires |couriers| > 0
      modifies this`couriers, this`courierSeq, this`ended, this`courierSignals, this`lost
      ensures Rota() == Rotation.Replace(old(Rota()), s)
    {
      var oldest := couriers[0];
      couriers := couriers[1..];
      ended := ended + [oldest];
      courierSignals := courierSignals + [Rotation.End(oldest)];
      var started := StartCourier(s);
      lost := lost + if started then 0 else 1;
    }

    /** The ticks of `courier_loop`; `turns` says what is left to chance in each. */
    method RotateFleet(turns: seq<Rotation.Turn>)
      modifies this`couriers, this`courierSeq, this`ended, this`courierSignals, this`lost
      ensures Rota() == Rotation.Ticks(old(Rota()), turns)
    {
      var tick := 0;
      while tick < |turns|
        invariant 0 <= tick <= |turns|
        invariant Rota() == Rotation.Ticks(old(Rota()), turns[..tick])
      {
        var turn := turns[tick];
        assert turns[..tick + 1][..tick] == turns[..tick];
        tick := tick + 1;
        PingCouriers();
        courierSignals := courierSignals + Rotation.Handed(couriers, turn.handed);
        if tick % 4 == 0 && |couriers| > 0 {
          ReplaceOldest(turn.start);
        }
      }
      assert turns[..|turns|] == turns;
    }
  }
}
