/** The courier fleet as the generator's courier loop rotates it. */
module Rotation {
  import opened Names
  import opened Wrappers

  datatype Shift = Shift(sequence: nat, suffix: string) {
    function Name(): string { CourierName(sequence, suffix) }
  }

  datatype Outcome = Started | AlreadyStarted | StartFailed

  datatype Start = Start(outcome: Outcome, suffix: string)

  /** What is left to chance in a tick: which listed courier is handed an
      assignment, if any, and how a replacement would start. */
  datatype Turn = Turn(handed: Option<nat>, start: Start)

  datatype Signal = Ping(shift: Shift) | Hand(shift: Shift) | End(shift: Shift)

  /** `retired` are the shifts told to end; `lost` counts replacements that
      failed to start; `sent` are the signals sent to couriers, in order. */
  datatype Rota = Rota(live: seq<Shift>, sequence: nat, retired: seq<Shift>, lost: nat, sent: seq<Signal>)

  const EMPTY_ROTA: Rota := Rota([], 0, [], 0, [])

  function StartShift(r: Rota, s: Start): Rota {
    var next := r.(sequence := r.sequence + 1);
    if s.outcome.StartFailed? then next
    else next.(live := r.live + [Shift(r.sequence + 1, s.suffix)])
  }

  /** Bringing the fleet up to size tries again after a failed start. */
  function Fill(r: Rota, size: nat, starts: seq<Start>): Rota
    decreases |starts|
  {
    if starts == [] || |r.live| >= size then r
    else Fill(StartShift(r, starts[0]), size, starts[1..])
  }

  function Pings(shifts: seq<Shift>): (pings: seq<Signal>)
    ensures |pings| == |shifts|
    ensures forall i :: 0 <= i < |shifts| ==> pings[i] == Ping(shifts[i])
  {
    if shifts == [] then [] else Pings(shifts[..|shifts| - 1]) + [Ping(shifts[|shifts| - 1])]
  }

  function Handed(live: seq<Shift>, handed: Option<nat>): seq<Signal> {
    if handed.Some? && handed.value < |live| then [Hand(live[handed.value])] else []
  }

  /** Everybody listed is pinged, somebody may be handed an assignment. */
  function Signalled(r: Rota, handed: Option<nat>): Rota {
    r.(sent := r.sent + Pings(r.live) + Handed(r.live, handed))
  }

  /** The oldest shift is told to end and its place is filled, if the start works. */
  function Replace(r: Rota, s: Start): Rota
    requires r.live != []
  {
    var retired := r.(live := r.live[1..], retired := r.retired + [r.live[0]], sent := r.sent + [End(r.live[0])]);
    StartShift(retired, s).(lost := r.lost + if s.outcome.StartFailed? then 1 else 0)
  }

  /** Every fourth tick ends by retiring the oldest shift. */
  function Tick(r: Rota, tick: nat, t: Turn): Rota {
    var signalled := Signalled(r, t.handed);
    if tick % 4 != 0 || r.live == [] then signalled else Replace(signalled, t.start)
  }

  function Ticks(r: Rota, turns: seq<Turn>): Rota
    decreases |turns|
  {
    if turns == [] then r
    else Tick(Ticks(r, turns[..|turns| - 1]), |turns|, turns[|turns| - 1])
  }

  // ----- properties

  ghost predicate Ascending(shifts: seq<Shift>, last: nat) {
    && (forall i, j :: 0 <= i < j < |shifts| ==> shifts[i].sequence < shifts[j].sequence)
    && (forall i :: 0 <= i < |shifts| ==> shifts[i].sequence <= last)
  }

  /** Retired and then live, the shifts are in the order they were started. */
  ghost predicate InOrder(r: Rota) {
    Ascending(r.retired + r.live, r.sequence)
  }

  lemma StartInOrder(r: Rota, s: Start)
    requires InOrder(r)
    ensures InOrder(StartShift(r, s))
  {
    var n := StartShift(r, s);
    if !s.outcome.StartFailed? {
      assert n.retired + n.live == (r.retired + r.live) + [Shift(r.sequence + 1, s.suffix)];
    }
  }

  lemma {:induction false} FillInOrder(r: Rota, size: nat, starts: seq<Start>)
    requires InOrder(r) && |r.live| <= size && r.retired == [] && r.lost == 0
    ensures var n := Fill(r, size, starts);
            InOrder(n) && |n.live| <= size && n.retired == [] && n.lost == 0
    decreases |starts|
  {
    if starts == [] || |r.live| >= size {
    } else {
      StartInOrder(r, starts[0]);
      FillInOrder(StartShift(r, starts[0]), size, starts[1..]);
    }
  }

  lemma ReplaceInOrder(r: Rota, s: Start)
    requires InOrder(r) && r.live != []
    ensures InOrder(Replace(r, s))
    ensures |Replace(r, s).live| + Replace(r, s).lost == |r.live| + r.lost
  {
    var retired := r.(live := r.live[1..], retired := r.retired + [r.live[0]], sent := r.sent + [End(r.live[0])]);
    assert retired.retired + retired.live == r.retired + r.live;
    StartInOrder(retired, s);
  }

  lemma TickInOrder(r: Rota, tick: nat, t: Turn)
    requires InOrder(r)
    ensures InOrder(Tick(r, tick, t))
    ensures |Tick(r, tick, t).live| + Tick(r, tick, t).lost == |r.live| + r.lost
  {
    if tick % 4 == 0 && r.live != [] {
      ReplaceInOrder(Signalled(r, t.handed), t.start);
    }
  }

  lemma {:induction false} TicksInOrder(r: Rota, turns: seq<Turn>)
    requires InOrder(r)
    ensures InOrder(Ticks(r, turns))
    ensures |Ticks(r, turns).live| + Ticks(r, turns).lost == |r.live| + r.lost
    decreases |turns|
  {
    if turns == [] {
    } else {
      TicksInOrder(r, turns[..|turns| - 1]);
      TickInOrder(Ticks(r, turns[..|turns| - 1]), |turns|, turns[|turns| - 1]);
    }
  }

  /** Starts that put a courier on the list, be it one already running. */
  function Good(starts: seq<Start>): nat
    decreases |starts|
  {
    if starts == [] then 0
    else Good(starts[..|starts| - 1]) + if starts[|starts| - 1].outcome.StartFailed? then 0 else 1
  }

  lemma GoodFirst(starts: seq<Start>)
    requires starts != []
    ensures Good(starts) == (if starts[0].outcome.StartFailed? then 0 else 1) + Good(starts[1..])
    decreases |starts|
  {
    if |starts| == 1 {
      assert starts[..0] == [] && starts[1..] == [];
    } else {
      var n := |starts| - 1;
      GoodFirst(starts[..n]);
      assert starts[..n][1..] == starts[1..][..n - 1];
    }
  }

  lemma GoodPrefix(starts: seq<Start>, n: nat)
    requires 1 <= n <= |starts|
    ensures Good(starts[..n]) == (if starts[0].outcome.StartFailed? then 0 else 1) + Good(starts[1..][..n - 1])
  {
    GoodFirst(starts[..n]);
    assert starts[..n][1..] == starts[1..][..n - 1];
  }

  lemma {:induction false} FillTries(r: Rota, size: nat, starts: seq<Start>)
    requires |r.live| <= size
    ensures var n := Fill(r, size, starts);
            && r.sequence <= n.sequence <= r.sequence + |starts|
            && |n.live| == |r.live| + Good(starts[..n.sequence - r.sequence])
            && |n.live| <= size
            && (|n.live| < size ==> n.sequence == r.sequence + |starts|)
    decreases |starts|
  {
    if starts == [] || |r.live| >= size {
      assert starts[..0] == [];
    } else {
      FillTries(StartShift(r, starts[0]), size, starts[1..]);
      GoodPrefix(starts, Fill(r, size, starts).sequence - r.sequence);
    }
  }

  lemma {:induction false} FillStops(r: Rota, size: nat, starts: seq<Start>)
    requires |r.live| <= size
    ensures var tried := Fill(r, size, starts).sequence - r.sequence;
            0 < tried <= |starts| ==> |r.live| + Good(starts[..tried - 1]) < size
    decreases |starts|
  {
    if starts == [] || |r.live| >= size {
    } else {
      var next := StartShift(r, starts[0]);
      var tried := Fill(r, size, starts).sequence - r.sequence;
      FillStops(next, size, starts[1..]);
      FillTries(next, size, starts[1..]);
      if tried > 1 {
        GoodPrefix(starts, tried - 1);
      } else {
        assert starts[..0] == [];
      }
    }
  }

  lemma {:induction false} GoodGrows(starts: seq<Start>, n: nat)
    requires n <= |starts|
    ensures Good(starts[..n]) <= Good(starts)
    decreases |starts|
  {
    if n == |starts| {
      assert starts[..n] == starts;
    } else {
      var init := starts[..|starts| - 1];
      GoodGrows(init, n);
      assert init[..n] == starts[..n];
    }
  }

  /** The fleet is filled with as many couriers as starts work, up to its size, and
      nobody is started beyond that: every start tried but the last left it short. */
  lemma FleetFills(size: nat, starts: seq<Start>)
    ensures var r := Fill(EMPTY_ROTA, size, starts);
            && |r.live| == (if Good(starts) < size then Good(starts) else size)
            && r.sequence <= |starts| && |r.live| == Good(starts[..r.sequence])
            && (|r.live| < size ==> r.sequence == |starts|)
            && (r.sequence > 0 ==> Good(starts[..r.sequence - 1]) < size)
  {
    var r := Fill(EMPTY_ROTA, size, starts);
    FillTries(EMPTY_ROTA, size, starts);
    FillStops(EMPTY_ROTA, size, starts);
    GoodGrows(starts, r.sequence);
    assert starts[..|starts|] == starts;
  }

  /** After filling and any number of ticks: live shifts are in start order, every
      retired shift is older than every live one, and once enough starts have worked
      to fill the fleet it is short by exactly the replacements that failed to
      start, which nothing makes up. */
  lemma FleetRotates(size: nat, fills: seq<Start>, turns: seq<Turn>)
    ensures var full := Fill(EMPTY_ROTA, size, fills);
            var r := Ticks(full, turns);
            && Ascending(r.live, r.sequence)
            && (forall i, j :: 0 <= i < |r.retired| && 0 <= j < |r.live| ==>
                  r.retired[i].sequence < r.live[j].sequence)
            && |r.live| <= size
            && (Good(fills) >= size ==> |r.live| + r.lost == size)
  {
    FillInOrder(EMPTY_ROTA, size, fills);
    FleetFills(size, fills);
    var full := Fill(EMPTY_ROTA, size, fills);
    TicksInOrder(full, turns);
    SplitInOrder(Ticks(full, turns));
  }

  lemma EverybodyIsPinged(r: Rota, handed: Option<nat>, k: nat)
    requires k < |r.live|
    ensures Signalled(r, handed).sent[|r.sent| + k] == Ping(r.live[k])
  {
  }

  lemma SignalledSends(r: Rota, handed: Option<nat>)
    ensures var n := Signalled(r, handed);
            var hands := handed.Some? && handed.value < |r.live|;
            && r.sent <= n.sent && |n.sent| == |r.sent| + |r.live| + (if hands then 1 else 0)
            && (hands ==> n.sent[|r.sent| + |r.live|] == Hand(r.live[handed.value]))
            && n.live == r.live
  {
  }

  lemma ReplaceSends(r: Rota, s: Start)
    requires r.live != []
    ensures Replace(r, s).sent == r.sent + [End(r.live[0])]
  {
  }

  /** What a tick sends, in this order: a ping to everybody listed, an assignment to
      whoever is handed one, and on a fourth tick the end to the oldest; no more. */
  predicate Sends(before: Rota, after: Rota, tick: nat, hand: Option<nat>) {
    var handed := if hand.Some? && hand.value < |before.live| then 1 else 0;
    var ended := if tick % 4 == 0 && before.live != [] then 1 else 0;
    && before.sent <= after.sent
    && |after.sent| == |before.sent| + |before.live| + handed + ended
    && (forall k :: 0 <= k < |before.live| ==> after.sent[|before.sent| + k] == Ping(before.live[k]))
    && (handed == 1 ==> after.sent[|before.sent| + |before.live|] == Hand(before.live[hand.value]))
    && (ended == 1 ==> after.sent[|after.sent| - 1] == End(before.live[0]))
  }

  lemma OneTickSends(before: Rota, tick: nat, t: Turn)
    ensures Sends(before, Tick(before, tick, t), tick, t.handed)
  {
    var signalled := Signalled(before, t.handed);
    SignalledSends(before, t.handed);
    forall k | 0 <= k < |before.live|
      ensures signalled.sent[|before.sent| + k] == Ping(before.live[k])
    {
      EverybodyIsPinged(before, t.handed, k);
    }
    if tick % 4 == 0 && before.live != [] {
      ReplaceSends(signalled, t.start);
    }
  }

  /** So it is at every tick of the courier loop. */
  lemma TickSends(r: Rota, turns: seq<Turn>, n: nat)
    requires n < |turns|
    ensures Sends(Ticks(r, turns[..n]), Ticks(r, turns[..n + 1]), n + 1, turns[n].handed)
  {
    assert turns[..n + 1][..n] == turns[..n];
    assert turns[..n + 1][n] == turns[n];
    OneTickSends(Ticks(r, turns[..n]), n + 1, turns[n]);
    assert Ticks(r, turns[..n + 1]) == Tick(Ticks(r, turns[..n]), n + 1, turns[n]);
  }

  lemma SplitInOrder(r: Rota)
    requires InOrder(r)
    ensures Ascending(r.live, r.sequence)
    ensures forall i, j :: 0 <= i < |r.retired| && 0 <= j < |r.live| ==>
              r.retired[i].sequence < r.live[j].sequence
  {
    var all := r.retired + r.live;
    assert forall j :: 0 <= j < |r.live| ==> r.live[j] == all[|r.retired| + j];
    assert forall i :: 0 <= i < |r.retired| ==> r.retired[i] == all[i];
  }

  lemma {:induction false} LostGrows(r: Rota, turns: seq<Turn>)
    ensures Ticks(r, turns).lost >= r.lost
    decreases |turns|
  {
    if turns == [] {
    } else {
      LostGrows(r, turns[..|turns| - 1]);
    }
  }

  /** While every replacement turns, one shift is retired every fourth tick. */
  lemma {:induction false} RetiresEveryFourthTick(r: Rota, turns: seq<Turn>)
    requires r.live != [] && InOrder(r) && Ticks(r, turns).lost == r.lost
    ensures |Ticks(r, turns).retired| == |r.retired| + |turns| / 4
    decreases |turns|
  {
    if turns == [] {
    } else {
      var n := |turns| - 1;
      TicksInOrder(r, turns);
      TicksInOrder(r, turns[..n]);
      LostGrows(r, turns[..n]);
      RetiresEveryFourthTick(r, turns[..n]);
    }
  }

  /** No courier is told to end twice, and none that was is still listed: all
      names the generator hands out are different. */
  lemma NobodyEndsTwice(size: nat, fills: seq<Start>, turns: seq<Turn>, i: nat, j: nat)
    requires var r := Ticks(Fill(EMPTY_ROTA, size, fills), turns);
             i < j < |r.retired + r.live|
    ensures var r := Ticks(Fill(EMPTY_ROTA, size, fills), turns);
            (r.retired + r.live)[i].Name() != (r.retired + r.live)[j].Name()
  {
    FillInOrder(EMPTY_ROTA, size, fills);
    TicksInOrder(Fill(EMPTY_ROTA, size, fills), turns);
    var r := Ticks(Fill(EMPTY_ROTA, size, fills), turns);
    var x, y := (r.retired + r.live)[i], (r.retired + r.live)[j];
    if x.Name() == y.Name() {
      CourierNameInjective(x.sequence, x.suffix, y.sequence, y.suffix);
    }
  }

  // ----- nobody is signalled after being told to end

  /** Whoever was told to end is older than everybody signalled since, everybody
      listed, and everybody still to start. */
  ghost predicate Farewell(r: Rota) {
    && (forall i, j :: 0 <= i < j < |r.sent| && r.sent[i].End? ==>
          r.sent[i].shift.sequence < r.sent[j].shift.sequence)
    && (forall i :: 0 <= i < |r.sent| && r.sent[i].End? ==> Behind(r.sent[i].shift, r))
  }

  ghost predicate Behind(x: Shift, r: Rota) {
    x.sequence <= r.sequence && forall k :: 0 <= k < |r.live| ==> x.sequence < r.live[k].sequence
  }

  lemma SendKeepsFarewell(r: Rota, x: seq<Signal>)
    requires Farewell(r)
    requires forall i :: 0 <= i < |x| ==> !x[i].End? && x[i].shift in r.live
    ensures Farewell(r.(sent := r.sent + x))
  {
    var n := r.(sent := r.sent + x);
    forall i, j | 0 <= i < j < |n.sent| && n.sent[i].End?
      ensures n.sent[i].shift.sequence < n.sent[j].shift.sequence
    {
      assert i < |r.sent| && n.sent[i] == r.sent[i];
      assert Behind(r.sent[i].shift, r);
      if j >= |r.sent| {
        assert n.sent[j] == x[j - |r.sent|];
      }
    }
  }

  lemma ReplaceKeepsFarewell(r: Rota, s: Start)
    requires Farewell(r) && Ascending(r.live, r.sequence) && r.live != []
    ensures Farewell(Replace(r, s))
  {
    var n := Replace(r, s);
    assert n.sent == r.sent + [End(r.live[0])];
    forall i | 0 <= i < |n.sent| && n.sent[i].End?
      ensures Behind(n.sent[i].shift, n)
    {
      if i < |r.sent| {
        assert Behind(r.sent[i].shift, r);
      }
    }
    forall i, j | 0 <= i < j < |n.sent| && n.sent[i].End?
      ensures n.sent[i].shift.sequence < n.sent[j].shift.sequence
    {
      assert Behind(r.sent[i].shift, r);
    }
  }

  lemma TickKeepsFarewell(r: Rota, tick: nat, t: Turn)
    requires Farewell(r) && Ascending(r.live, r.sequence)
    ensures Farewell(Tick(r, tick, t))
  {
    var pinged := r.(sent := r.sent + Pings(r.live));
    SendKeepsFarewell(r, Pings(r.live));
    SendKeepsFarewell(pinged, Handed(r.live, t.handed));
    if tick % 4 == 0 && r.live != [] {
      ReplaceKeepsFarewell(Signalled(r, t.handed), t.start);
    }
  }

  lemma {:induction false} TicksKeepFarewell(r: Rota, turns: seq<Turn>)
    requires InOrder(r) && Farewell(r)
    ensures Farewell(Ticks(r, turns))
    decreases |turns|
  {
    if turns == [] {
    } else {
      var before := Ticks(r, turns[..|turns| - 1]);
      TicksKeepFarewell(r, turns[..|turns| - 1]);
      TicksInOrder(r, turns[..|turns| - 1]);
      SplitInOrder(before);
      TickKeepsFarewell(before, |turns|, turns[|turns| - 1]);
    }
  }

  lemma {:induction false} FillSendsNothing(r: Rota, size: nat, starts: seq<Start>)
    ensures Fill(r, size, starts).sent == r.sent
    decreases |starts|
  {
    if starts == [] || |r.live| >= size {
    } else {
      FillSendsNothing(StartShift(r, starts[0]), size, starts[1..]);
    }
  }

  /** Once told to end, a courier gets no ping, no assignment and no second end,
      and nobody else by its name does. */
  lemma NothingAfterEnd(size: nat, fills: seq<Start>, turns: seq<Turn>, i: nat, j: nat)
    requires var sent := Ticks(Fill(EMPTY_ROTA, size, fills), turns).sent; i < j < |sent| && sent[i].End?
    ensures var sent := Ticks(Fill(EMPTY_ROTA, size, fills), turns).sent;
            sent[i].shift.Name() != sent[j].shift.Name()
  {
    FillInOrder(EMPTY_ROTA, size, fills);
    FillSendsNothing(EMPTY_ROTA, size, fills);
    TicksKeepFarewell(Fill(EMPTY_ROTA, size, fills), turns);
    var sent := Ticks(Fill(EMPTY_ROTA, size, fills), turns).sent;
    var x, y := sent[i].shift, sent[j].shift;
    if x.Name() == y.Name() {
      CourierNameInjective(x.sequence, x.suffix, y.sequence, y.suffix);
    }
  }
}
