/**
 Orders, regions and couriers together. Each entity lives through its own schedule
 of activations; all that ties the schedules together is that the network delivers
 each signal at most once and makes none up. Every interleaving, delay and loss,
 and every terminated and restarted region, is some collection of such lives.
 */
module Network {
  import opened Names
  import D = DispatchModel
  import L = DispatchLedger
  import S = DispatchSafety
  import O = OrderModel
  import OS = OrderSafety
  import K = CourierModel
  import KS = CourierSafety

  datatype OrderLife = OrderLife(inp: O.Input, es: seq<O.Activation>)

  /** One incarnation of a region, from its start to its termination. */
  datatype RegionLife = RegionLife(region: string, es: seq<D.Activation>)

  datatype CourierLife = CourierLife(courierId: string, region: string, vehicleType: string, es: seq<K.Activation>)

  datatype World = World(orders: seq<OrderLife>, regions: seq<RegionLife>, couriers: seq<CourierLife>)

  /** A signal in transit, with the workflow id it is addressed to. */
  datatype Message =
    | Ready(target: string, order: D.Order)
    | Answer(target: string, courier: string)
    | Available(target: string, courier: string)

  function OrderEnd(o: OrderLife): O.Machine { O.Reached(o.inp, o.es) }

  function RegionEnd(r: RegionLife): D.Machine { D.Reached(r.region, r.es) }

  function CourierEnd(k: CourierLife): K.Machine { K.Reached(k.courierId, k.region, k.vehicleType, k.es) }

  // ----- messages sent

  function ReadyFrom(requests: seq<O.Command>): seq<Message>
    decreases |requests|
  {
    if requests == [] then []
    else
      (if requests[0].RequestDispatch?
       then [Ready(requests[0].target, D.Order(requests[0].orderId, requests[0].workflowId))] else [])
      + ReadyFrom(requests[1..])
  }

  function AnswersFrom(told: seq<(string, string)>): seq<Message>
    decreases |told|
  {
    if told == [] then [] else [Answer(told[0].0, told[0].1)] + AnswersFrom(told[1..])
  }

  function AvailableFrom(reports: seq<K.Command>): seq<Message>
    decreases |reports|
  {
    if reports == [] then []
    else
      (if reports[0].ReportAvailable? then [Available(reports[0].target, reports[0].courierId)] else [])
      + AvailableFrom(reports[1..])
  }

  function SentByOrders(orders: seq<OrderLife>): seq<Message>
    decreases |orders|
  {
    if orders == [] then []
    else ReadyFrom(OS.Books(OrderEnd(orders[0]).core.out).requests) + SentByOrders(orders[1..])
  }

  function SentByRegions(regions: seq<RegionLife>): seq<Message>
    decreases |regions|
  {
    if regions == [] then []
    else AnswersFrom(L.Books(RegionEnd(regions[0]).core.out).told) + SentByRegions(regions[1..])
  }

  function SentByCouriers(couriers: seq<CourierLife>): seq<Message>
    decreases |couriers|
  {
    if couriers == [] then []
    else AvailableFrom(KS.Books(CourierEnd(couriers[0]).core.out).reports) + SentByCouriers(couriers[1..])
  }

  function Sent(w: World): seq<Message> {
    SentByOrders(w.orders) + SentByRegions(w.regions) + SentByCouriers(w.couriers)
  }

  // ----- messages delivered

  function ReadyTo(target: string, orders: seq<D.Order>): seq<Message>
    decreases |orders|
  {
    if orders == [] then [] else [Ready(target, orders[0])] + ReadyTo(target, orders[1..])
  }

  function AvailableTo(target: string, couriers: seq<string>): seq<Message>
    decreases |couriers|
  {
    if couriers == [] then [] else [Available(target, couriers[0])] + AvailableTo(target, couriers[1..])
  }

  function AnswersTo(target: string, answers: seq<string>): seq<Message>
    decreases |answers|
  {
    if answers == [] then [] else [Answer(target, answers[0])] + AnswersTo(target, answers[1..])
  }

  function GotByOrders(orders: seq<OrderLife>): seq<Message>
    decreases |orders|
  {
    if orders == [] then []
    else AnswersTo(OrderWorkflowId(orders[0].inp.orderId), OrderEnd(orders[0]).core.heard) + GotByOrders(orders[1..])
  }

  function GotByRegions(regions: seq<RegionLife>): seq<Message>
    decreases |regions|
  {
    if regions == [] then []
    else ReadyTo(DispatchId(regions[0].region), L.OrdersOf(regions[0].es))
         + AvailableTo(DispatchId(regions[0].region), L.CouriersOf(regions[0].es))
         + GotByRegions(regions[1..])
  }

  function Got(w: World): seq<Message> {
    GotByOrders(w.orders) + GotByRegions(w.regions)
  }

  /** At most once, and nothing made up. */
  ghost predicate Delivers(w: World) {
    multiset(Got(w)) <= multiset(Sent(w))
  }

  ghost predicate DistinctOrders(orders: seq<OrderLife>) {
    forall i, j :: 0 <= i < j < |orders| ==> orders[i].inp.orderId != orders[j].inp.orderId
  }

  // ----- counting messages

  function Count(s: seq<Message>, p: Message -> bool): nat
    decreases |s|
  {
    if s == [] then 0 else (if p(s[0]) then 1 else 0) + Count(s[1..], p)
  }

  lemma {:induction false} CountConcat(s: seq<Message>, t: seq<Message>, p: Message -> bool)
    ensures Count(s + t, p) == Count(s, p) + Count(t, p)
    decreases |s|
  {
    if s == [] {
      assert s + t == t;
    } else {
      assert (s + t)[1..] == s[1..] + t;
      CountConcat(s[1..], t, p);
    }
  }

  lemma RemoveFrom(t: seq<Message>, x: Message) returns (i: nat)
    requires x in t
    ensures i < |t| && t[i] == x
    ensures multiset(t) == multiset{x} + multiset(t[..i] + t[i + 1..])
  {
    i :| 0 <= i < |t| && t[i] == x;
    assert t == t[..i] + [x] + t[i + 1..];
  }

  lemma CountRemove(t: seq<Message>, i: nat, p: Message -> bool)
    requires i < |t|
    ensures Count(t, p) == Count(t[..i] + t[i + 1..], p) + if p(t[i]) then 1 else 0
  {
    CountConcat(t[..i], t[i + 1..], p);
    CountConcat(t[..i], [t[i]] + t[i + 1..], p);
    assert t == t[..i] + ([t[i]] + t[i + 1..]);
    assert ([t[i]] + t[i + 1..])[1..] == t[i + 1..];
  }

  lemma TailWithin(s: seq<Message>, t: multiset<Message>)
    requires s != [] && multiset(s) <= multiset{s[0]} + t
    ensures multiset(s[1..]) <= t
  {
    assert s == [s[0]] + s[1..];
    assert multiset(s) == multiset{s[0]} + multiset(s[1..]);
    forall y
      ensures multiset(s[1..])[y] <= t[y]
    {
      assert multiset(s)[y] <= (multiset{s[0]} + t)[y];
    }
  }

  /** Fewer messages, fewer of any kind. */
  lemma {:induction false} CountMonotone(s: seq<Message>, t: seq<Message>, p: Message -> bool)
    requires multiset(s) <= multiset(t)
    ensures Count(s, p) <= Count(t, p)
    decreases |s|
  {
    if s == [] {
    } else {
      assert multiset(s)[s[0]] > 0;
      var i := RemoveFrom(t, s[0]);
      var rest := t[..i] + t[i + 1..];
      TailWithin(s, multiset(rest));
      CountMonotone(s[1..], rest, p);
      CountRemove(t, i, p);
    }
  }

  // ----- one order, one answer

  function ReadyFor(id: string): Message -> bool {
    (m: Message) => m.Ready? && m.order.workflowId == id
  }

  function AnswerFor(id: string): Message -> bool {
    (m: Message) => m.Answer? && m.target == id
  }

  predicate AllReady(s: seq<Message>) { forall i :: 0 <= i < |s| ==> s[i].Ready? }

  predicate AllAnswers(s: seq<Message>) { forall i :: 0 <= i < |s| ==> s[i].Answer? }

  predicate AllAvailable(s: seq<Message>) { forall i :: 0 <= i < |s| ==> s[i].Available? }

  lemma {:induction false} CountNone(s: seq<Message>, p: Message -> bool)
    requires forall i :: 0 <= i < |s| ==> !p(s[i])
    ensures Count(s, p) == 0
    decreases |s|
  {
    if s == [] {
    } else {
      CountNone(s[1..], p);
    }
  }

  lemma {:induction false} ReadyFromIsReady(requests: seq<O.Command>)
    ensures AllReady(ReadyFrom(requests))
    decreases |requests|
  {
    if requests == [] {
    } else {
      ReadyFromIsReady(requests[1..]);
    }
  }

  lemma {:induction false} OrdersSendReady(orders: seq<OrderLife>)
    ensures AllReady(SentByOrders(orders))
    decreases |orders|
  {
    if orders == [] {
    } else {
      ReadyFromIsReady(OS.Books(OrderEnd(orders[0]).core.out).requests);
      OrdersSendReady(orders[1..]);
    }
  }

  lemma {:induction false} AnswersFromAreAnswers(told: seq<(string, string)>)
    ensures |AnswersFrom(told)| == |told|
    ensures forall i :: 0 <= i < |told| ==> AnswersFrom(told)[i] == Answer(told[i].0, told[i].1)
    decreases |told|
  {
    if told == [] {
    } else {
      AnswersFromAreAnswers(told[1..]);
    }
  }

  lemma {:induction false} RegionsSendAnswers(regions: seq<RegionLife>)
    ensures AllAnswers(SentByRegions(regions))
    decreases |regions|
  {
    if regions == [] {
    } else {
      AnswersFromAreAnswers(L.Books(RegionEnd(regions[0]).core.out).told);
      RegionsSendAnswers(regions[1..]);
    }
  }

  lemma {:induction false} AvailableFromIsAvailable(reports: seq<K.Command>)
    ensures AllAvailable(AvailableFrom(reports))
    decreases |reports|
  {
    if reports == [] {
    } else {
      AvailableFromIsAvailable(reports[1..]);
    }
  }

  lemma {:induction false} CouriersSendAvailable(couriers: seq<CourierLife>)
    ensures AllAvailable(SentByCouriers(couriers))
    decreases |couriers|
  {
    if couriers == [] {
    } else {
      AvailableFromIsAvailable(KS.Books(CourierEnd(couriers[0]).core.out).reports);
      CouriersSendAvailable(couriers[1..]);
    }
  }

  function ReadyOf(inp: O.Input): Message {
    Ready(DispatchId(inp.region), D.Order(inp.orderId, OrderWorkflowId(inp.orderId)))
  }

  /** What an order has sent, at any point of its life: one message or none. */
  lemma OrderSends(o: OrderLife)
    ensures var sent := ReadyFrom(OS.Books(OrderEnd(o).core.out).requests);
            sent == [] || sent == [ReadyOf(o.inp)]
  {
    OS.ReachedKept(o.inp, o.es);
    OS.ReachedInput(o.inp, o.es);
    var requests := OS.Books(OrderEnd(o).core.out).requests;
    assert requests == [] || requests == [OS.RequestOf(o.inp)];
    if requests != [] {
      assert requests[0] == OS.RequestOf(o.inp) && requests[1..] == [];
      assert ReadyFrom(requests[1..]) == [];
      assert ReadyFrom(requests) == [ReadyOf(o.inp)] + ReadyFrom(requests[1..]);
    }
  }

  /** Each order asks for a courier at most once, under its own workflow id. */
  lemma {:induction false} AtMostOneReady(orders: seq<OrderLife>, id: string)
    requires DistinctOrders(orders)
    ensures Count(SentByOrders(orders), ReadyFor(OrderWorkflowId(id))) <= 1
    ensures (forall i :: 0 <= i < |orders| ==> orders[i].inp.orderId != id) ==>
              Count(SentByOrders(orders), ReadyFor(OrderWorkflowId(id))) == 0
    decreases |orders|
  {
    if orders == [] {
    } else {
      var o, p := orders[0], ReadyFor(OrderWorkflowId(id));
      var own := ReadyFrom(OS.Books(OrderEnd(o).core.out).requests);
      OrderSends(o);
      if OrderWorkflowId(o.inp.orderId) == OrderWorkflowId(id) {
        OrderWorkflowIdInjective(o.inp.orderId, id);
      }
      assert Count(own, p) <= if o.inp.orderId == id then 1 else 0;
      CountConcat(own, SentByOrders(orders[1..]), p);
      AtMostOneReady(orders[1..], id);
    }
  }

  function CountOrders(orders: seq<D.Order>, id: string): nat
    decreases |orders|
  {
    if orders == [] then 0 else (if orders[0].workflowId == id then 1 else 0) + CountOrders(orders[1..], id)
  }

  lemma {:induction false} CountReadyTo(target: string, orders: seq<D.Order>, id: string)
    ensures Count(ReadyTo(target, orders), ReadyFor(id)) == CountOrders(orders, id)
    decreases |orders|
  {
    if orders == [] {
    } else {
      CountReadyTo(target, orders[1..], id);
    }
  }

  /** Answers sent to a workflow are at most the orders received for it. */
  lemma {:induction false} AnswersWithinOrders(told: seq<(string, string)>, orders: seq<D.Order>, id: string)
    requires |told| <= |orders|
    requires forall i :: 0 <= i < |told| ==> told[i].0 == orders[i].workflowId
    ensures Count(AnswersFrom(told), AnswerFor(id)) <= CountOrders(orders, id)
    decreases |told|
  {
    if told == [] {
    } else {
      AnswersWithinOrders(told[1..], orders[1..], id);
    }
  }

  lemma RegionAnswersWithinOrders(r: RegionLife, id: string)
    ensures Count(AnswersFrom(L.Books(RegionEnd(r).core.out).told), AnswerFor(id))
         <= Count(ReadyTo(DispatchId(r.region), L.OrdersOf(r.es)), ReadyFor(id))
  {
    var l := L.Books(RegionEnd(r).core.out);
    L.ReachedBalanced(r.region, r.es);
    S.OwedFollowsTaken(RegionEnd(r).core.out);
    assert forall i :: 0 <= i < |l.taken| ==> L.OrdersOf(r.es)[i] == l.taken[i];
    assert forall i :: 0 <= i < |l.told| ==> l.told[i] == l.owed[i];
    AnswersWithinOrders(l.told, L.OrdersOf(r.es), id);
    CountReadyTo(DispatchId(r.region), L.OrdersOf(r.es), id);
  }

  lemma {:induction false} RegionsAnswerOnce(regions: seq<RegionLife>, id: string)
    ensures Count(SentByRegions(regions), AnswerFor(id)) <= Count(GotByRegions(regions), ReadyFor(id))
    decreases |regions|
  {
    if regions == [] {
    } else {
      var r, rest := regions[0], regions[1..];
      RegionAnswersWithinOrders(r, id);
      RegionsAnswerOnce(rest, id);
      var ready := ReadyTo(DispatchId(r.region), L.OrdersOf(r.es));
      var available := AvailableTo(DispatchId(r.region), L.CouriersOf(r.es));
      CountConcat(AnswersFrom(L.Books(RegionEnd(r).core.out).told), SentByRegions(rest), AnswerFor(id));
      CountConcat(ready + available, GotByRegions(rest), ReadyFor(id));
      CountConcat(ready, available, ReadyFor(id));
    }
  }

  lemma {:induction false} CountAnswersTo(id: string, answers: seq<string>)
    ensures Count(AnswersTo(id, answers), AnswerFor(id)) == |answers|
    decreases |answers|
  {
    if answers == [] {
    } else {
      CountAnswersTo(id, answers[1..]);
    }
  }

  lemma {:induction false} HeardIsDelivered(orders: seq<OrderLife>, i: nat)
    requires i < |orders|
    ensures var id := OrderWorkflowId(orders[i].inp.orderId);
            |OrderEnd(orders[i]).core.heard| <= Count(GotByOrders(orders), AnswerFor(id))
    decreases |orders|
  {
    var id := OrderWorkflowId(orders[i].inp.orderId);
    var first := AnswersTo(OrderWorkflowId(orders[0].inp.orderId), OrderEnd(orders[0]).core.heard);
    CountConcat(first, GotByOrders(orders[1..]), AnswerFor(id));
    if i == 0 {
      CountAnswersTo(id, OrderEnd(orders[0]).core.heard);
    } else {
      HeardIsDelivered(orders[1..], i - 1);
    }
  }

  lemma ReadyDeliveredOnce(w: World, id: string)
    requires Delivers(w) && DistinctOrders(w.orders)
    ensures Count(GotByRegions(w.regions), ReadyFor(OrderWorkflowId(id))) <= 1
  {
    var p := ReadyFor(OrderWorkflowId(id));
    CountMonotone(Got(w), Sent(w), p);
    AtMostOneReady(w.orders, id);
    RegionsSendAnswers(w.regions);
    CouriersSendAvailable(w.couriers);
    CountNone(SentByRegions(w.regions), p);
    CountNone(SentByCouriers(w.couriers), p);
    CountConcat(SentByOrders(w.orders) + SentByRegions(w.regions), SentByCouriers(w.couriers), p);
    CountConcat(SentByOrders(w.orders), SentByRegions(w.regions), p);
    CountConcat(GotByOrders(w.orders), GotByRegions(w.regions), p);
  }

  /** However signals are delayed, lost or interleaved, and however often regions
      recycle, die and restart, an order hears at most one `courier_assigned`. */
  lemma AtMostOneAnswer(w: World, i: nat)
    requires Delivers(w) && DistinctOrders(w.orders) && i < |w.orders|
    ensures |OrderEnd(w.orders[i]).core.heard| <= 1
  {
    var id := w.orders[i].inp.orderId;
    var q := AnswerFor(OrderWorkflowId(id));
    ReadyDeliveredOnce(w, id);
    RegionsAnswerOnce(w.regions, OrderWorkflowId(id));
    CountMonotone(Got(w), Sent(w), q);
    OrdersSendReady(w.orders);
    CouriersSendAvailable(w.couriers);
    CountNone(SentByOrders(w.orders), q);
    CountNone(SentByCouriers(w.couriers), q);
    CountConcat(SentByOrders(w.orders) + SentByRegions(w.regions), SentByCouriers(w.couriers), q);
    CountConcat(SentByOrders(w.orders), SentByRegions(w.regions), q);
    CountConcat(GotByOrders(w.orders), GotByRegions(w.regions), q);
    HeardIsDelivered(w.orders, i);
  }

  // ----- the answer is dispatch's own pairing

  lemma {:induction false} AnswersToHas(target: string, answers: seq<string>, courier: string)
    requires courier in answers
    ensures Answer(target, courier) in AnswersTo(target, answers)
    decreases |answers|
  {
    if courier == answers[0] {
    } else {
      AnswersToHas(target, answers[1..], courier);
    }
  }

  lemma {:induction false} DeliveredAnswer(orders: seq<OrderLife>, i: nat, courier: string)
    requires i < |orders| && courier in OrderEnd(orders[i]).core.heard
    ensures Answer(OrderWorkflowId(orders[i].inp.orderId), courier) in GotByOrders(orders)
    decreases |orders|
  {
    if i == 0 {
      AnswersToHas(OrderWorkflowId(orders[0].inp.orderId), OrderEnd(orders[0]).core.heard, courier);
    } else {
      DeliveredAnswer(orders[1..], i - 1, courier);
    }
  }

  lemma {:induction false} AnswerHasSender(regions: seq<RegionLife>, id: string, courier: string)
    returns (k: nat, j: nat)
    requires Answer(id, courier) in SentByRegions(regions)
    ensures k < |regions| && j < |L.Books(RegionEnd(regions[k]).core.out).told|
    ensures L.Books(RegionEnd(regions[k]).core.out).told[j] == (id, courier)
    decreases |regions|
  {
    var told := L.Books(RegionEnd(regions[0]).core.out).told;
    AnswersFromAreAnswers(told);
    if Answer(id, courier) in AnswersFrom(told) {
      k := 0;
      j :| 0 <= j < |told| && AnswersFrom(told)[j] == Answer(id, courier);
    } else {
      k, j := AnswerHasSender(regions[1..], id, courier);
      k := k + 1;
    }
  }

  lemma GotIsSent(w: World, x: Message)
    requires Delivers(w) && x in Got(w)
    ensures x in Sent(w)
  {
    assert multiset(Got(w))[x] > 0;
    assert multiset(Sent(w))[x] > 0;
  }

  /** Every answer an order hears is what some incarnation of a region paired
      with it. */
  lemma AnswerIsThePairing(w: World, i: nat, courier: string) returns (k: nat, j: nat)
    requires Delivers(w) && i < |w.orders| && courier in OrderEnd(w.orders[i]).core.heard
    ensures k < |w.regions|
    ensures var l := L.Books(RegionEnd(w.regions[k]).core.out);
            && j < |l.owed| == |l.taken|
            && l.taken[j].workflowId == OrderWorkflowId(w.orders[i].inp.orderId)
            && l.owed[j] == (l.taken[j].workflowId, courier)
  {
    var id := OrderWorkflowId(w.orders[i].inp.orderId);
    DeliveredAnswer(w.orders, i, courier);
    GotIsSent(w, Answer(id, courier));
    OrdersSendReady(w.orders);
    CouriersSendAvailable(w.couriers);
    assert Answer(id, courier) in SentByRegions(w.regions);
    k, j := AnswerHasSender(w.regions, id, courier);
    L.ReachedBalanced(w.regions[k].region, w.regions[k].es);
    S.OwedFollowsTaken(RegionEnd(w.regions[k]).core.out);
  }

  // ----- regions do not mix

  lemma {:induction false} AssignedIsTaken(out: seq<D.Command>, order: D.Order, pick: D.Pick)
    requires D.AssignCourier(order, pick) in out
    ensures order in L.Books(out).taken
    ensures pick.Real? ==> pick.id in L.Books(out).gone
    decreases |out|
  {
    var n := |out| - 1;
    assert out == out[..n] + [out[n]];
    if out[n] != D.AssignCourier(order, pick) {
      AssignedIsTaken(out[..n], order, pick);
    }
  }

  lemma {:induction false} ReadyToHas(target: string, orders: seq<D.Order>, order: D.Order)
    requires order in orders
    ensures Ready(target, order) in ReadyTo(target, orders)
    decreases |orders|
  {
    if order != orders[0] {
      ReadyToHas(target, orders[1..], order);
    }
  }

  lemma {:induction false} AvailableToHas(target: string, couriers: seq<string>, courier: string)
    requires courier in couriers
    ensures Available(target, courier) in AvailableTo(target, couriers)
    decreases |couriers|
  {
    if courier != couriers[0] {
      AvailableToHas(target, couriers[1..], courier);
    }
  }

  lemma {:induction false} RegionGets(regions: seq<RegionLife>, k: nat, x: Message)
    requires k < |regions|
    requires || x in ReadyTo(DispatchId(regions[k].region), L.OrdersOf(regions[k].es))
             || x in AvailableTo(DispatchId(regions[k].region), L.CouriersOf(regions[k].es))
    ensures x in GotByRegions(regions)
    decreases |regions|
  {
    if k == 0 {
    } else {
      RegionGets(regions[1..], k - 1, x);
    }
  }

  lemma {:induction false} ReadyHasSender(orders: seq<OrderLife>, x: Message) returns (i: nat)
    requires x in SentByOrders(orders)
    ensures i < |orders|
    ensures x == ReadyOf(orders[i].inp)
    decreases |orders|
  {
    OrderSends(orders[0]);
    if x in ReadyFrom(OS.Books(OrderEnd(orders[0]).core.out).requests) {
      i := 0;
    } else {
      i := ReadyHasSender(orders[1..], x);
      i := i + 1;
    }
  }

  lemma {:induction false} AllAvailableFrom(reports: seq<K.Command>, courierId: string, region: string, x: Message)
    requires KS.AllReport(reports, courierId, region) && x in AvailableFrom(reports)
    ensures x == Available(DispatchId(region), courierId)
    decreases |reports|
  {
    if x != Available(DispatchId(region), courierId) {
      AllAvailableFrom(reports[1..], courierId, region, x);
    }
  }

  lemma {:induction false} AvailableHasSender(couriers: seq<CourierLife>, x: Message) returns (i: nat)
    requires x in SentByCouriers(couriers)
    ensures i < |couriers| && x == Available(DispatchId(couriers[i].region), couriers[i].courierId)
    decreases |couriers|
  {
    var k := couriers[0];
    var reports := KS.Books(CourierEnd(k).core.out).reports;
    if x in AvailableFrom(reports) {
      i := 0;
      KS.ReportsGoHome(k.courierId, k.region, k.vehicleType, k.es);
      AllAvailableFrom(reports, k.courierId, k.region, x);
    } else {
      i := AvailableHasSender(couriers[1..], x);
      i := i + 1;
    }
  }

  /** An order a region received was placed in it. */
  lemma OrderComesFrom(w: World, k: nat, order: D.Order) returns (i: nat)
    requires Delivers(w) && k < |w.regions| && order in L.OrdersOf(w.regions[k].es)
    ensures i < |w.orders| && w.orders[i].inp.orderId == order.orderId
    ensures order.workflowId == OrderWorkflowId(order.orderId)
    ensures w.orders[i].inp.region == w.regions[k].region
  {
    var r := w.regions[k];
    var x := Ready(DispatchId(r.region), order);
    ReadyToHas(DispatchId(r.region), L.OrdersOf(r.es), order);
    RegionGets(w.regions, k, x);
    GotIsSent(w, x);
    RegionsSendAnswers(w.regions);
    CouriersSendAvailable(w.couriers);
    i := ReadyHasSender(w.orders, x);
    DispatchIdInjective(w.orders[i].inp.region, r.region);
  }

  /** A courier reported to a region started its shift in it. */
  lemma CourierComesFrom(w: World, k: nat, id: string) returns (i: nat)
    requires Delivers(w) && k < |w.regions| && id in L.CouriersOf(w.regions[k].es)
    ensures i < |w.couriers| && w.couriers[i].courierId == id
    ensures w.couriers[i].region == w.regions[k].region
  {
    var r := w.regions[k];
    var x := Available(DispatchId(r.region), id);
    AvailableToHas(DispatchId(r.region), L.CouriersOf(r.es), id);
    RegionGets(w.regions, k, x);
    GotIsSent(w, x);
    OrdersSendReady(w.orders);
    RegionsSendAnswers(w.regions);
    i := AvailableHasSender(w.couriers, x);
    DispatchIdInjective(w.couriers[i].region, r.region);
  }

  /** Regions do not mix: an assignment made in a region is for an order placed in
      it, a reported courier it uses started its shift in it, and a made-up one
      names it. */
  lemma AssignmentsStayInRegion(w: World, k: nat, order: D.Order, pick: D.Pick)
    requires Delivers(w) && k < |w.regions|
    requires D.AssignCourier(order, pick) in RegionEnd(w.regions[k]).core.out
    ensures exists i :: 0 <= i < |w.orders| && w.orders[i].inp.orderId == order.orderId
                        && w.orders[i].inp.region == w.regions[k].region
    ensures pick.Real? ==>
              exists i :: 0 <= i < |w.couriers| && w.couriers[i].courierId == pick.id
                          && w.couriers[i].region == w.regions[k].region
    ensures pick.Synthetic? ==> pick.region == w.regions[k].region
  {
    var r := w.regions[k];
    S.MadeUpCouriersNameRegion(r.region, r.es);
    AssignedIsTaken(RegionEnd(r).core.out, order, pick);
    L.ReachedBalanced(r.region, r.es);
    var i := OrderComesFrom(w, k, order);
    if pick.Real? {
      var c := CourierComesFrom(w, k, pick.id);
    }
  }

  // ----- one courier per order

  /** The pairing an order hears was made in the region it was placed in. */
  lemma PairedAtHome(w: World, i: nat, courier: string) returns (k: nat, j: nat)
    requires Delivers(w) && DistinctOrders(w.orders) && i < |w.orders|
    requires courier in OrderEnd(w.orders[i]).core.heard
    ensures k < |w.regions| && w.regions[k].region == w.orders[i].inp.region
    ensures j < |L.Books(RegionEnd(w.regions[k]).core.out).owed|
    ensures L.Books(RegionEnd(w.regions[k]).core.out).owed[j]
            == (OrderWorkflowId(w.orders[i].inp.orderId), courier)
  {
    k, j := AnswerIsThePairing(w, i, courier);
    var taken := L.Books(RegionEnd(w.regions[k]).core.out).taken;
    L.ReachedBalanced(w.regions[k].region, w.regions[k].es);
    assert taken[j] == L.OrdersOf(w.regions[k].es)[j];
    var home := OrderComesFrom(w, k, taken[j]);
    OrderWorkflowIdInjective(w.orders[home].inp.orderId, w.orders[i].inp.orderId);
  }

  /** Some incarnation of the order's own region paired it with the courier. */
  ghost predicate Paired(regions: seq<RegionLife>, inp: O.Input, courier: string) {
    exists k, j :: && 0 <= k < |regions| && 0 <= j < |L.Books(RegionEnd(regions[k]).core.out).owed|
                   && regions[k].region == inp.region
                   && L.Books(RegionEnd(regions[k]).core.out).owed[j] == (OrderWorkflowId(inp.orderId), courier)
  }

  /** The courier of a delivered order, across the whole fleet. Answered in time,
      settlement and, if stages are tracked, pickup name the courier its own
      region's dispatch paired with it; otherwise each names the fallback or that one pairing. */
  lemma OneCourierPerOrder(w: World, i: nat)
    requires Delivers(w) && DistinctOrders(w.orders) && i < |w.orders|
    requires OrderEnd(w.orders[i]).at.Settle?
    ensures var c := OrderEnd(w.orders[i]).core;
            && c.inp == w.orders[i].inp && c.trackStages == c.inp.trackStages
            && |c.heard| <= 1 && OS.OneCourier(c)
            && (c.heard != [] ==> Paired(w.regions, w.orders[i].inp, c.heard[0]))
  {
    AtMostOneAnswer(w, i);
    OS.OneAnswerOneCourier(w.orders[i].inp, w.orders[i].es);
    if OrderEnd(w.orders[i]).core.heard != [] {
      var k, j := PairedAtHome(w, i, OrderEnd(w.orders[i]).core.heard[0]);
    }
  }

  // ----- nobody unknown is paid

  lemma {:induction false} OwedNamesPick(out: seq<D.Command>, j: nat) returns (order: D.Order, pick: D.Pick)
    requires j < |L.Books(out).owed|
    ensures D.AssignCourier(order, pick) in out
    ensures L.Books(out).owed[j] == (order.workflowId, pick.Name())
    decreases |out|
  {
    var n := |out| - 1;
    assert out == out[..n] + [out[n]];
    if j < |L.Books(out[..n]).owed| {
      order, pick := OwedNamesPick(out[..n], j);
    } else {
      order, pick := out[n].order, out[n].pick;
    }
  }

  predicate IsName(courier: string) {
    courier != "" && courier != "unknown"
  }

  lemma PickIsNamed(w: World, k: nat, order: D.Order, pick: D.Pick)
    requires Delivers(w) && k < |w.regions|
    requires forall c :: 0 <= c < |w.couriers| ==> IsName(w.couriers[c].courierId)
    requires D.AssignCourier(order, pick) in RegionEnd(w.regions[k]).core.out
    ensures IsName(pick.Name())
  {
    AssignmentsStayInRegion(w, k, order, pick);
    if pick.Synthetic? {
      assert pick.Name()[0] == 's' && "unknown"[0] == 'u';
    }
  }

  lemma AnswerIsNamed(w: World, i: nat, courier: string)
    requires Delivers(w) && i < |w.orders| && courier in OrderEnd(w.orders[i]).core.heard
    requires forall c :: 0 <= c < |w.couriers| ==> IsName(w.couriers[c].courierId)
    ensures IsName(courier)
  {
    var k, j := AnswerIsThePairing(w, i, courier);
    var order, pick := OwedNamesPick(RegionEnd(w.regions[k]).core.out, j);
    PickIsNamed(w, k, order, pick);
  }

  /** As long as no courier is called nothing or "unknown", no settlement pays
      "unknown", tracked order or not. */
  lemma NobodyUnknownIsPaid(w: World, i: nat)
    requires Delivers(w) && i < |w.orders| && OrderEnd(w.orders[i]).at.Settle?
    requires forall c :: 0 <= c < |w.couriers| ==> IsName(w.couriers[c].courierId)
    ensures OS.Books(OrderEnd(w.orders[i]).core.out).payees != ["unknown"]
  {
    var heard := OrderEnd(w.orders[i]).core.heard;
    forall courier | courier in heard
      ensures IsName(courier)
    {
      AnswerIsNamed(w, i, courier);
    }
    OS.SettledCourierIsKnown(w.orders[i].inp, w.orders[i].es);
  }
}
