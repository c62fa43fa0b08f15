# Verified model of the delivery fleet

A fleet of signal-driven, durable workflow entities: regions that match orders to
couriers, order sagas, courier shifts, the control entity that holds the demo's
scenarios, the generator that relays scenarios and rotates couriers, and batches.
Signals land only at awaits, and continue-as-new replaces a run by a fresh object
built from the carried input. This project models those entities and proves what
they keep over every schedule of activations, over any number of runs, and when
they are put together.

`dafny verify dfyconfig.toml` checks everything.

## How it is built

Each entity has two forms.

- A **machine** (`DispatchModel`, `OrderModel`, `CourierModel`, `ControlModel`): a
  state with the object's fields, the await the coroutine is suspended at, and the
  commands issued so far. `Step` takes one activation (a batch of signals, and
  whether the awaited thing is over) to the next await; `Run` folds it over a
  schedule.
- A **class** (`DispatchEntity`, `OrderEntity`, `CourierEntity`, `ControlEntity`,
  `GeneratorEntity`) with the source's fields, handlers and loops. An await draws
  activations from an inbox. Every method carries the invariant that the machine's
  run from here still ends where the machine's run from the start ends, so the
  loops are proved to be the machine, and `Host` proves it for chains of runs.

The theorems are about the machines. `DispatchLedger` and `DispatchSafety` hold what
a region conserves and never loses; `DispatchRefinement` that recycling is invisible
to matching; `DispatchRecovery` how long recovery and one iteration take, and
`DispatchLimits` when a region recycles and what it issues; `OrderSafety`,
`OrderTiming` and `OrderClosing` the saga's effects, couriers, clock and other ends;
`CourierSafety` and `ControlSafety` the other two entities; `Rotation` the courier
fleet; `Relay` what a tick sends; `Fleet` the regions, the control entity and the
relay event by event, `FleetModes` what a region is told, and `FleetRuns` the runs
on which the relay fails; `Network` orders, regions and couriers joined only by a
network that delivers each signal at most once and makes none up; `Batch`, `Names`
and `Numerals` the fan-out.

## Assumptions

- Code between two awaits is atomic. A batch of signals is handled, in order, before
  the coroutine resumes, so an answer that comes with a timeout wins. A wait
  condition is tested before yielding and again after each batch.
- A new run's prologue and first segment run before it handles any signal. The
  machine therefore runs them as part of the activation that closed the old run,
  with the three history events a first workflow task sees.
- History length is whatever each activation reports. Theorems that need more say
  so: `Metered` (an activation adds at most k events per completion and per signal)
  and `StaysGreen` (a parked, unsignalled run's history stands still).
- A signal the server accepts waits in its workflow's mailbox until the workflow
  handles it, in the order accepted and together with whatever else has arrived; a
  region may lag any number of events behind the relay.
- Activities without a retry policy eventually succeed; a failed external signal is
  swallowed, as in the source. Signals may be lost unless a theorem
  says `Reliable` (all arrive) or `HealingsArrive` (those that heal a region do).
- The order clock counts whole seconds from the order's start. A timer never fires
  early; a slow validation fails on every attempt, since it outlives its timeout.
- One generator runs, and only it signals degradations. It may end at any time; a
  new one is not started.

## Where things are not as they look

- An `end_shift` can be lost: exactly when it finds the courier busy and the inner
  loop is left with history over its limit
  (`EndShiftHonouredExactlyWithinHistory`, `EndShiftCanBeLost`).
- An order can be carried by one courier and pay another: exactly when an answer
  naming someone else is heard between pickup and settlement
  (`CourierSplitsExactlyOnLateAnswer`, `LateAnswerSplitsCourier`).
- The control entity's limit of 500 signals is per wake-up, not cumulative
  (`RecyclesExactlyPerBatch`, `RunsTakeAnyNumber`).
- A region's processed count can exceed 200: exactly when more orders arrive between
  two checks than there was room for (`CountStaysWithinExactly`,
  `ProcessedHasNoBound`).
- Two regions can run degraded at once without a lost signal: a region that lags may
  not have handled its reset when the next one takes its degradation. At most one was
  last told to (`AtMostOneRegionDegraded`, `TwoCanRunDegraded`).
- A lost reset is never retried, be it the one that clears the fleet
  (`ClearingTickHealsIff`, `ResetCanBeLost`) or the one sent when the scenario moves
  to another region (`MovingResetHealsIff`, `MoveCanStrand`): the region stays
  degraded until it is asked for again (`LostResetIsNeverRetried`).
- An `inflate_rate` that `int` refuses, null for one, raises out of the control loop
  and, as nothing catches it, ends the whole generator: exactly when a tick finds the
  scenario on with such a rate (`StopsExactlyOnBadRate`). A region degraded then stays
  so (`BadRateStrandsRegion`, `EndedGeneratorHealsNobody`).
- A failed replacement is never made up: the courier fleet shrinks for good
  (`FleetRotates`).
- common/search_attributes.py:43-45 says FleetStatus is degraded exactly when
  continue-as-new is suspended. That holds of parked regions (`ParkedShowsSuspension`);
  the code also calls a region degraded while it only inflates history
  (workflows/dispatch.py:74-80), and the model follows the code
  (`ShownDegradedUnsuspended`).

## Model

| member | source | states |
|---|---|---|
| `DispatchEntity.DispatchWorkflow.constructor` | workflows/dispatch.py:36-45 | A fresh object has empty queues, no degradation and the published status healthy. |
| `DispatchEntity.DispatchWorkflow.OrderReady` | workflows/dispatch.py:47-51 | An order joins the end of the pending queue; nothing else changes. |
| `DispatchEntity.DispatchWorkflow.CourierAvailable` | workflows/dispatch.py:53-55 | A courier report joins the end of the pool; nothing else changes. |
| `DispatchEntity.DispatchWorkflow.SetDegradation` | workflows/dispatch.py:57-60 | The mode is replaced; nothing is published by the handler. |
| `DispatchEntity.DispatchWorkflow.PublishStatus` | workflows/dispatch.py:82-93 | One upsert of status and backlog when health differs from what was published, else none. |
| `DispatchEntity.DispatchWorkflow.WaitCondition` | workflows/dispatch.py:121-135 | The wait, tested before yielding and after each batch of signals, leads where the machine's loop top leads. |
| `DispatchEntity.DispatchWorkflow.InflateHistory` | workflows/dispatch.py:107-119 | The marker loop and its timer refine the machine's marker points, max(1, rate or 40) of them. |
| `DispatchEntity.DispatchWorkflow.AssignNext` | workflows/dispatch.py:163-173 | The oldest order meets the longest-waiting courier, or one made up from region and count; both leave their queues. |
| `DispatchEntity.DispatchWorkflow.ServeNext` | workflows/dispatch.py:163-180 | One turn of the drain, with signals landing at both awaits, refines the machine. |
| `DispatchEntity.DispatchWorkflow.DrainPending` | workflows/dispatch.py:161-180 | The drain loop ends with nothing pending, where the machine's drain leads. |
| `DispatchEntity.DispatchWorkflow.CloseRun` | workflows/dispatch.py:142-159 | The carried state keeps the newest fifty couriers, the mode and a zero count, and is stamped with health and backlog. |
| `DispatchEntity.DispatchWorkflow.Iterate` | workflows/dispatch.py:106-159 | One turn of the main loop, on either branch, refines the machine. |
| `DispatchEntity.DispatchWorkflow.Execute` | workflows/dispatch.py:95-159 | A whole run terminates on finite deliveries and refines the machine; a run that continues as new has handled at least one activation. |
| `DispatchEntity.Host` | workflows/dispatch.py:95-189 | Runs hosted one after another, each on a fresh object from the carried state, are the machine over all deliveries. |
| `DispatchModel.RestIsLoopTop` | workflows/dispatch.py:106-145 | After a drain that owes no recycling, the closed form used by the machine is the source's loop top. |
| `DispatchModel.RecycleIsLoopTop` | workflows/dispatch.py:97-104 | After continue-as-new, the closed form is the prologue followed by the source's loop top. |
| `DispatchModel.CheckDecides` | workflows/dispatch.py:142-159 | Whatever activation reaches the recycling check, its outcome is decided by what the check looks at, and nothing else. |
| `DispatchLedger.DeliverAppends` | workflows/dispatch.py:47-60 | A batch of signals appends to the two queues and sets the last mode, and changes nothing else. |
| `DispatchLedger.ReachedBalanced` | workflows/dispatch.py:95-189 | At every await of every run: assigned ++ pending is what arrived, used-or-shed ++ pool is what was reported, answers match assignments, recyclings strand nothing, picks are numbered. |
| `DispatchSafety.OrdersServedOnceInOrder` | workflows/dispatch.py:140-189 | Over any number of runs, orders received = served ++ in flight (at most one) ++ pending, in order, each once. |
| `DispatchSafety.AnswersMatchAssignments` | workflows/dispatch.py:169-179 | Answers go out in order, one per assignment, to the order's own workflow, naming its courier; only the one in flight may be owed. |
| `DispatchSafety.RecyclingStrandsNothing` | workflows/dispatch.py:142-159 | Every continue-as-new carries no orders and stamps backlog 0; it sheds couriers only when fifty are kept, and never while suspended. |
| `DispatchSafety.CourierReportsAccounted` | workflows/dispatch.py:161-189 | The pool is a suffix of all reports ever received; the rest is an order-preserving merge of used and shed couriers. |
| `DispatchSafety.SyntheticCouriersDistinct` | workflows/dispatch.py:164-180 | No two made-up couriers of one run share a name. |
| `DispatchSafety.MadeUpCouriersNameRegion` | workflows/dispatch.py:163-168 | Over every run a region keeps its name, and every courier it ever made up names it. |
| `DispatchSafety.NoLostWakeUp` | workflows/dispatch.py:127-145 | A parked region has nothing pending, is not inflating, has published its health, and if it may recycle is within both thresholds, though the predicate never mentions the count. |
| `DispatchSafety.VisibleHealthIsCheap` | workflows/dispatch.py:74-104 | Visibility shows the published status across runs; upserts strictly alternate and never exceed the health changes signalled. |
| `DispatchSafety.EachRunIsCheap` | workflows/dispatch.py:82-104 | From any recycling on, the new run's upserts never exceed the health changes it is signalled. |
| `DispatchSafety.ParkedShowsSuspension` | common/search_attributes.py:43-45 | A parked region is shown degraded if and only if its continue-as-new is suspended. |
| `DispatchSafety.ShownDegradedUnsuspended` | workflows/dispatch.py:74-80 | Not so a busy one: any region that only inflates its history is shown degraded though free to recycle. |
| `DispatchRefinement.ChainMatchesSingleRun` | workflows/dispatch.py:142-189 | If no recycling sheds a courier, the chain of runs makes the same pairings, and has the same queues and await point, as one run that never recycles. |
| `DispatchRecovery.RegionRecovers` | workflows/dispatch.py:106-159 | Once its degradation is lifted, a region is green after as many completions as it has work, two more per order that still comes, on at most one continue-as-new, whatever couriers and orders arrive. |
| `DispatchRecovery.StaysGreen` | workflows/dispatch.py:127-135 | A green region stays exactly as it is until something is signalled. |
| `DispatchRecovery.StepWorks` | workflows/dispatch.py:112-180 | Within an iteration each completion does one unit of work and each order received adds two. |
| `DispatchRecovery.IterationEnds` | workflows/dispatch.py:106-145 | An iteration ends when its arrivals do: once the completions match the work at hand and two per order received, the check has been reached. |
| `DispatchRecovery.OvershootIsOneIteration` | workflows/dispatch.py:107-159 | From any await, the history at the next recycling check exceeds the present one by at most the iteration's own events. |
| `DispatchRecovery.OvershootFromCheck` | workflows/dispatch.py:142-145 | Past the check the loop top is within both thresholds; at the next check history exceeds 1500 by at most markers, timer, two per order, and signals. |
| `DispatchRecovery.CountAtCheck` | workflows/dispatch.py:140-145 | At the check the count is what it was, plus the orders pending, in flight and received since: none is missed or counted twice. |
| `DispatchRecovery.CountStaysWithinExactly` | workflows/dispatch.py:140-145 | After a passed check the count is within 200 at the next one if and only if no more orders arrive in between than 200 minus the count. |
| `DispatchRecovery.ProcessedHasNoBound` | workflows/dispatch.py:140-145 | Bursts beyond that exist: a healthy region can be reached with any count at all. |
| `DispatchLimits.RecyclesExactlyAtLimits` | workflows/dispatch.py:140-159 | An activation makes a region continue as new if and only if it brings it to the check, its mode does not suspend that, and the run has assigned 200 orders or has more than 1500 events. |
| `DispatchLimits.ClosesOnlyAtLimits` | workflows/dispatch.py:107-159 | Over all runs, every continue-as-new came beyond 1500 events or with 200 orders assigned in its run, and the markers of each run are numbered from one. |
| `DispatchLimits.IterationAddsItsRate` | workflows/dispatch.py:107-119 | From loop top to check an inflating iteration adds as many markers as its rate, 40 for a rate of zero and one for a negative one; any other adds none. |
| `DispatchLimits.UpsertsShowBacklog` | workflows/dispatch.py:82-93 | Whatever an activation upserts is the health of that moment and, as backlog, the orders received less those assigned before. |
| `DispatchLimits.FlipsAreNoticed` | workflows/dispatch.py:137-138 | Once the wait or the timer is over, the published status is the health signalled last. |
| `OrderEntity.OrderWorkflow.constructor` | workflows/order.py:40-42 | A fresh order has no courier and tracks stages. |
| `OrderEntity.OrderWorkflow.CourierAssigned` | workflows/order.py:56-58 | An answer overwrites the courier, whenever it comes. |
| `OrderEntity.OrderWorkflow.UpdateStage` | workflows/order.py:44-54 | One upsert per stage, or none when stages are not tracked. |
| `OrderEntity.OrderWorkflow.Await` | workflows/order.py:71-72 | Every await (timer, activity, signal call, child start, courier wait) hears answers before resuming and refines the machine's await point. |
| `OrderEntity.OrderWorkflow.Cook` | workflows/order.py:91-115 | Steps 3 to 5 refine the machine, stamping the promise at acceptance. |
| `OrderEntity.OrderWorkflow.FindCourier` | workflows/order.py:131-141 | The courier wait is skipped if the answer is already there and falls back after its timeout. |
| `OrderEntity.OrderWorkflow.Drive` | workflows/order.py:143-157 | Pickup names the courier of that moment; the drive follows. |
| `OrderEntity.OrderWorkflow.HandOver` | workflows/order.py:159-188 | Delivery starts settlement, naming the courier of that moment. |
| `OrderEntity.OrderWorkflow.Execute` | workflows/order.py:64-190 | The whole saga refines the machine on every inbox. |
| `OrderModel.ClosedStays` | workflows/order.py:190 | A closed order hears nothing more. |
| `OrderSafety.ResumeMoves` | workflows/order.py:64-190 | The saga moves one place on at each await, skipping the courier wait exactly when a courier is known. |
| `OrderSafety.ReachedKept` | workflows/order.py:64-190 | On every schedule: stages, request, settlement, both couriers named, injected faults and elapsed timers are as the point reached demands. |
| `OrderSafety.StagesInOrder` | workflows/order.py:109-154 | Stage upserts are a prefix of preparing, awaiting_courier, in_transit; all three exactly when a tracked order passed pickup. |
| `OrderSafety.SettledExactlyOnDelivery` | workflows/order.py:91-188 | One settlement, under the order's own ids, exactly once delivery is reached; at most one request; never with an injected fault or the forced timeout. |
| `OrderSafety.CourierSplitsExactlyOnLateAnswer` | workflows/order.py:56-58 | Pickup and settlement name different couriers if and only if an answer naming someone else was heard between them. |
| `OrderSafety.OneAnswerOneCourier` | workflows/order.py:136-188 | With at most one answer: in time, it is paid and, if stages are tracked, carries; after a fallback, each is the fallback or the answer, never going back; untracked orders are paid by the same rule. |
| `OrderSafety.SettledCourierIsKnown` | workflows/order.py:174 | Settlement never names "unknown" unless an answer is empty or says so. |
| `OrderSafety.LateAnswerSplitsCourier` | workflows/order.py:138-188 | For every tracked, faultless order there is a schedule on which the fallback carries it and somebody else is paid. |
| `OrderTiming.ActivityWithinBudget` | common/retry.py:25-30 | Five tries of ten seconds with capped doubling backoff take at most 65 seconds plus time queued. |
| `OrderTiming.BudgetIsTight` | common/retry.py:25-30 | Five full tries that never queue take exactly 65 seconds: the backoffs are 1, 2, 4 and 8. |
| `OrderTiming.PromiseKept` | workflows/order.py:35-165 | The stamp is 2100 seconds after acceptance; delivery takes at most 290 plus queueing and latency, so it comes before the stamp when those are under 1810. |
| `OrderTiming.DeliveryTakesItsTimers` | workflows/order.py:69-157 | On every schedule an order spends at most 170 seconds on timers; delivered, it spent at least 140, and all 170 if it fell back. |
| `OrderTiming.OrdersDrain` | workflows/order.py:131-190 | With no injected fault and no failing activity, thirteen completions deliver any order, whatever dispatch does. |
| `OrderTiming.EveryOrderDelivers` | workflows/order.py:64-190 | From its start, whatever dispatch does, an order with no injected fault is delivered after twelve completions with 140 to 170 seconds of timers. |
| `OrderClosing.ForcedTimesOut` | workflows/order.py:66-69 | A forced order only sleeps, and is timed out if and only if an activation has come at ten seconds or later. |
| `OrderClosing.OnlyForcedTimeOut` | generator.py:171-174 | No other order times out. |
| `OrderClosing.FailsExactlyWhenStruck` | workflows/order.py:71-188 | An order fails if and only if an activity or the hand-over breaks or an injected fault meets what it awaits; a broken signal or timer is no failure. |
| `OrderClosing.RejectedOrderFails` | workflows/order.py:91-96 | An order the restaurant is to reject fails after three completions, at the restaurant unless something broke before. |
| `OrderClosing.SlowOrderFails` | workflows/order.py:71-77 | A slow validation fails the order at once. |
| `OrderClosing.AnswerEndsWait` | workflows/order.py:135-138 | An answer ends the courier wait there and then, without a fallback. |
| `OrderClosing.SilenceFallsBack` | workflows/order.py:135-141 | Without an answer the wait ends in the fallback courier after thirty seconds and not before. |
| `OrderClosing.UnknownPaidExactly` | workflows/order.py:174 | A settlement pays 'unknown' if and only if the last answer heard before it is empty or says so. |
| `CourierEntity.CourierShiftWorkflow.constructor` | workflows/courier.py:25-32 | A fresh shift has nothing queued and no end pending. |
| `CourierEntity.CourierShiftWorkflow.LocationPing` | workflows/courier.py:34-36 | A ping is counted. |
| `CourierEntity.CourierShiftWorkflow.Assignment` | workflows/courier.py:38-40 | An assignment joins the end of the queue. |
| `CourierEntity.CourierShiftWorkflow.EndShift` | workflows/courier.py:42-44 | The end flag is raised. |
| `CourierEntity.CourierShiftWorkflow.AcceptNext` | workflows/courier.py:75-92 | One turn of the inner loop refines the machine. |
| `CourierEntity.CourierShiftWorkflow.AcceptAll` | workflows/courier.py:74-92 | The inner loop ends with an empty queue, where the machine's drain leads. |
| `CourierEntity.CourierShiftWorkflow.Execute` | workflows/courier.py:56-114 | A whole run terminates on finite deliveries and refines the machine. |
| `CourierEntity.Host` | workflows/courier.py:56-114 | Runs hosted one after another are the machine over all deliveries. |
| `CourierModel.DrainEndsAtLoopTop` | workflows/courier.py:64-94 | After the inner loop, within the history limit, the machine is at the source's loop top. |
| `CourierModel.EndedStays` | workflows/courier.py:71-72 | An ended shift hears nothing more. |
| `CourierSafety.ShiftConserves` | workflows/courier.py:64-114 | Until the end, over any number of runs: assignments = accepted ++ queued in order, all but the one in hand counted and reported once, pings exact, although the queue is never carried. |
| `CourierSafety.EndedShiftCountsItsWork` | workflows/courier.py:71-72 | The shift's result counts exactly the assignments accepted; the rest were still queued. |
| `CourierSafety.ReportsGoHome` | workflows/courier.py:82-90 | A courier keeps its identity across runs and only reports itself, to its own region. |
| `CourierSafety.EndShiftAtWait` | workflows/courier.py:65-72 | An end of shift that finds the courier waiting ends it at once, whatever the history. |
| `CourierSafety.EndShiftHonouredExactlyWithinHistory` | workflows/courier.py:74-114 | An end of shift that finds the courier busy, even with the activation completing its last report, is honoured if and only if the inner loop is left with history at most 1500; otherwise it is lost with the run. |
| `CourierSafety.EndShiftCanBeLost` | workflows/courier.py:94-114 | For every courier there is a schedule on which its end of shift is lost, and then nothing but another one ends the shift. |
| `CourierSafety.DrainIsFinite` | workflows/courier.py:74-92 | Without new assignments the inner loop is left after its work is done. |
| `CourierSafety.ShiftRecyclesExactly` | workflows/courier.py:64-114 | A shift continues as new if and only if it is left with nothing to accept and more than 1500 events, and was not told to end while waiting. |
| `CourierSafety.WaitingShiftHasNothingToDo` | workflows/courier.py:65-69 | A waiting courier has nothing queued, no end pending and at most 1500 events. |
| `ControlEntity.DemoControlWorkflow.constructor` | control/workflow.py:29-31 | A fresh entity holds the defaults. |
| `ControlEntity.DemoControlWorkflow.MergeScenario` | control/schema.py:44-52 | New parameters over the old ones, or over the defaults for an unknown state. |
| `ControlEntity.DemoControlWorkflow.SetScenario` | control/workflow.py:57-60 | The fold's step for set_scenario, counted. |
| `ControlEntity.DemoControlWorkflow.ResetAll` | control/workflow.py:62-66 | The fold's step for reset_all, counted. |
| `ControlEntity.DemoControlWorkflow.RecordAction` | control/workflow.py:68-73 | The fold's step for record_action, counted. |
| `ControlEntity.DemoControlWorkflow.Handle` | control/workflow.py:57-73 | A batch of signals is the fold of its signals. |
| `ControlEntity.DemoControlWorkflow.Execute` | control/workflow.py:33-55 | A whole run terminates on finite deliveries and refines the machine. |
| `ControlEntity.Host` | control/workflow.py:33-55 | Runs hosted one after another are the machine over all deliveries. |
| `ControlSafety.CarryIsExact` | control/workflow.py:35-40 | Overlaying the carried map on the defaults gives the carried map back, once it has every default key. |
| `ControlSafety.CarryFillsIn` | control/workflow.py:35-40 | A run handed a map without some scenario fills in that scenario's defaults and keeps whatever it was handed. |
| `ControlSafety.SettingFillsIn` | control/schema.py:44-52 | Setting a scenario the state lacks starts from its defaults, if it has any. |
| `ControlSafety.ControlStateIsFold` | control/workflow.py:33-77 | However runs are cut, get_state is the fold of all signals over the defaults, and every default key is present. |
| `ControlSafety.ControlIsLastWriter` | control/schema.py:24-52 | Each parameter is its last write since the last reset, else its default; each switch its last setting since then, else off. |
| `ControlSafety.ResetRestoresDefaults` | control/schema.py:24-41 | After any signals over any runs, reset_all leaves exactly the six scenarios, off, with the parameters the schema lists. |
| `ControlSafety.RecyclesExactlyPerBatch` | control/workflow.py:42-55 | A run is cut if and only if one batch brings 500 signals or history exceeds 1500: the counter restarts at every wake-up. |
| `ControlSafety.RunsTakeAnyNumber` | control/workflow.py:42-55 | Any number of signals can pass through one uncut run, arriving apart. |
| `GeneratorEntity.Generator.constructor` | generator.py:85-92 | A fresh generator remembers no scenarios, couriers or degraded region. |
| `GeneratorEntity.Generator.SafeSignal` | generator.py:330-335 | A degradation signal is handed to the client; its fate is not reported back. |
| `GeneratorEntity.Generator.ResetRegion` | generator.py:327-328 | Resetting sends the default degradation. |
| `GeneratorEntity.Generator.ControlTick` | generator.py:298-318 | One tick sends exactly the planned signals, in order, and remembers what the plan says. |
| `GeneratorEntity.Generator.ControlLoop` | generator.py:295-319 | Any number of ticks, with any refreshes failing, is the fold of the plan. |
| `GeneratorEntity.Generator.StartCourier` | generator.py:236-259 | A start always takes the next sequence number; it lists the courier unless it failed. |
| `GeneratorEntity.Generator.FillFleet` | generator.py:211-214 | Filling tries again after a failed start, until the fleet has its size. |
| `GeneratorEntity.Generator.PingCouriers` | generator.py:219-223 | Every listed courier gets one ping, in order. |
| `GeneratorEntity.Generator.RotateFleet` | generator.py:216-234 | Each tick pings everybody listed and may hand somebody an assignment; every fourth tells the oldest to end and starts one replacement. |
| `Rotation.FleetFills` | generator.py:211-214 | The fleet is filled with as many couriers as starts work, up to its size, and every start tried but the last left it short. |
| `Rotation.TickSends` | generator.py:216-234 | Each tick pings everybody listed, hands the one chosen an assignment, ends the oldest on a fourth tick, in that order, and sends no more. |
| `Rotation.FleetRotates` | generator.py:211-259 | Live couriers are in start order, every retired one is older than every live one, and once enough starts have worked to fill the fleet it is short by exactly the replacements that failed. |
| `Rotation.RetiresEveryFourthTick` | generator.py:229-233 | While replacements start, one courier is retired every fourth tick. |
| `Rotation.NobodyEndsTwice` | generator.py:229-238 | No two couriers ever listed share a name, so none is told to end twice or told while listed. |
| `Rotation.NothingAfterEnd` | generator.py:216-234 | Whoever was told to end gets no ping, assignment or second end any more, and neither does anybody of that name. |
| `Relay.StopsExactlyOnBadRate` | generator.py:295-314 | The control loop raises, ending the generator, if and only if some tick finds the scenario on with a rate int() refuses. |
| `Relay.TruthyExactly` | generator.py:309-310 | Only null, false, zero and empty text switch a parameter off. |
| `Relay.NumbersTruncate` | generator.py:311 | A whole rate is sent as it is, a flag as 0 or 1, a printed numeral as its number, a fraction cut off towards zero. |
| `Relay.WhatIsNoNumber` | generator.py:311 | Null is no rate, nor is text without a digit or with anything but digits, signs, underscores and white space. |
| `Fleet.AtMostOneRegionDegraded` | generator.py:295-335 | As long as healings arrive, between any two events at most one region was last told to degrade: the remembered one or the one about to be signalled, whatever is set, terminated or restarted and whichever degradations are lost; any other still running degraded has its healing in its mailbox. |
| `FleetRuns.TwoCanRunDegraded` | generator.py:298-315 | Without that lag clause it is false: for every two regions there is a reliable run on which both run degraded, the first not having handled its reset. |
| `Fleet.TickIsRelayTick` | generator.py:297-318 | Sent out signal by signal, a tick sends what the generator object's own tick records and leaves the relay where that leaves it. |
| `Fleet.EnabledTickDegrades` | generator.py:298-315 | A full tick with the scenario on tells the named region exactly the mode its parameters ask for. |
| `FleetModes.AskedModeArrives` | generator.py:297-315 | End to end: set the scenario for any region, switches and rate on any reached fleet with an idle relay; one full tick has told the region exactly that and the region it left to be healthy. |
| `FleetModes.DefaultModeArrives` | control/schema.py:29-37 | Set with no parameters after a reset, it tells us-west to suspend recycling and inflate at 40. |
| `FleetModes.BadRateStillResets` | generator.py:302-311 | A tick that finds a rate int() refuses still resets the region it leaves, then raises; it tells nobody else and remembers what it did before. |
| `FleetModes.FleetStarts` | common/constants.py:39-41 | The fleet is the five regions, healthy and parked. |
| `FleetModes.KeptAliveRestores` | generator.py:122-140 | The keep-alive starts every region that is gone, healthy and parked, and leaves the others alone. |
| `Fleet.ResetDisables` | control/workflow.py:62-66 | After reset_all the degradation scenario is off, even across continue-as-new. |
| `Fleet.FreshTickClears` | generator.py:297-318 | While the scenario is off, one fresh tick among any events that lose no healing leaves a relay that resets whom it remembered and then remembers nobody. |
| `Fleet.ResetToGreen` | generator.py:297-318 | End to end: reset_all from any fleet reached with no healing lost, mid-tick or not; then any such events that leave the scenario off, with one fresh tick among them; then every region that has handled its mailbox becomes green within its work, new orders included, on at most one continue-as-new, unless terminated. |
| `Fleet.ClearingTickHealsIff` | generator.py:316-318 | The clearing tick heals the fleet if and only if its signal arrives or nobody was degraded. |
| `Fleet.MovingResetHealsIff` | generator.py:302-303 | When the scenario moves to another region, at most one stays degraded if and only if the reset arrives or the region left was not degraded. |
| `Fleet.LostResetIsNeverRetried` | generator.py:302-318 | A lost reset is never retried, at either call: until the scenario is set on for that very region, no tick, reset_all, scenario for another region or other control signal heals it. |
| `FleetRuns.ResetCanBeLost` | generator.py:316-318 | For every region there is a run from the start on which its reset is lost and the relay forgets it. |
| `FleetRuns.MoveCanStrand` | generator.py:302-318 | For every two regions there is a run on which the first is stranded by the move to the second, the scenario still being on, and stays degraded and forgotten after a reset whose every signal arrives. |
| `Fleet.EndedGeneratorHealsNobody` | generator.py:337-347 | Once the generator has ended, a degraded region stays degraded whatever the control entity is told. |
| `FleetRuns.BadRateStrandsRegion` | generator.py:309-311 | For every region there is a run on which a rate of null ends the generator and leaves the region degraded. |
| `Network.AtMostOneAnswer` | workflows/order.py:118-127 | However signals are lost, delayed or interleaved and however regions recycle, die and restart, an order hears at most one courier_assigned. |
| `Network.AnswerIsThePairing` | workflows/dispatch.py:163-177 | Every answer an order hears is the courier some incarnation of a region paired with it. |
| `Network.PairedAtHome` | workflows/order.py:118-127 | That region is the one the order was placed in. |
| `Network.OneCourierPerOrder` | workflows/order.py:118-188 | Answered in time, settlement and, if tracked, pickup name the pairing made in the order's own region; otherwise each names the fallback or that single pairing. |
| `Network.AssignmentsStayInRegion` | workflows/courier.py:82-90 | An assignment in a region is for an order placed there; a reported courier it uses started its shift there, and a made-up one names that region. |
| `Network.NobodyUnknownIsPaid` | workflows/order.py:167-188 | As long as no courier's id is empty or 'unknown', no settlement pays 'unknown', tracked order or not. |
| `Names.DispatchIdInjective` | common/constants.py:44-45 | Different regions have different dispatch ids. |
| `Names.CandidateIdInjective` | common/constants.py:56-57 | Candidate ids are injective in batch and index, hyphens in the batch id included. |
| `Names.SyntheticCourierInjective` | workflows/dispatch.py:164-168 | Made-up courier names are injective in region and number. |
| `Names.CourierNameInjective` | generator.py:237-238 | Courier ids are injective in the sequence number. |
| `Names.SettlementIdInjective` | common/constants.py:52-53 | Different orders have different settlement ids. |
| `Names.IdsAreSpelled` | common/constants.py:44-57 | Examples of every id, spelled out. |
| `Numerals.ParsePrint` | common/constants.py:56-57 | Decimal printing has an inverse. |
| `Numerals.ReadPrint` | generator.py:311 | int() of a printed numeral, signed or not, is the number. |
| `Numerals.ReadsGroups` | generator.py:311 | int() reads a plus sign and single underscores, and refuses doubled or outer ones, a second sign, inner white space and the empty text. |
| `Numerals.SkipsSpaceBehind` | generator.py:311 | White space behind makes no difference, nor, by SkipsSpaceBefore, before. |
| `Batch.Run` | workflows/batch.py:41-75 | A storm starts as many children as asked for, a healthy batch at most 8, each under its own id of batch and index; the result reports their number and the top three. The sequential mode evaluates 0 to n-1 and starts nobody. |
| `Batch.RankedIsStableOrder` | workflows/batch.py:74 | The descending sort is the stable order of all indices, each once. |
| `Batch.WinnersAreTheBest` | workflows/batch.py:74 | Winners are min(3, n) distinct indices by score, ties to the lower, and nobody left out ranks before one. |
| `Batch.WinnersAreUnique` | workflows/batch.py:74 | Being the best determines the winners. |
| `Batch.ScoreIsDigitSum` | activities/batch.py:8-10 | A candidate's score is its index's digit sum, up to a constant per length, modulo 100. |
| `Batch.StormWinners` | workflows/batch.py:54-75 | Every batch of 32 children or more is won by 13, 22 and 31. |
| `Batch.NormalWinners` | workflows/batch.py:54-75 | A batch of three to eight children is won by the last three. |

## Left out

- The Temporal SDK and server, connections, registration and visibility queries: foreign calls and I/O. Only awaits, signals, timers and continue-as-new are modelled.
- The dashboard, the worker supervisors and control/cache.py: plumbing around the entities, with only easy facts.
- workflows/menu.py, workflows/settlement.py and the activities that return a constant: straight-line code. Settlement is the recipient of one start request.
- Random choices, jitter and probabilities: inputs that range over everything.
- `ensure_entities`: it appears only as a region being started again, an event of `Fleet` that may come at any time while the generator runs.
- The generator's order and batch loops, and the fixed sleeps of all loops: they choose inputs and start workflows, and nothing modelled depends on their choices. If one of them raises, the generator ends, an event of `Fleet` that may come at any time.
- Search attributes other than FleetStatus, PendingOrderCount, OrderStage, PromisedDeliveryAt and the courier ids named by an order.
- Scenario parameters that are lists or nested objects: a parameter is null, a flag, a finite number or text. A region parameter that is not text names no region. White space and digits outside ASCII in a numeric text are taken as no number.
- Batch scores are kept in hundredths, as integers from 0 to 99; dividing by 100 keeps the order.
- The storm retry policy: payment retries until it succeeds, and no bound is claimed before acceptance.
- GeneratorEntity.Generator.SafeSignal: records that a degradation was handed to the client; courier signals have their own record, and a client error is swallowed by the source, so its only trace is the undelivered signal of `Fleet`.
- GeneratorEntity.Generator.PingCouriers: the coordinates of a ping are not modelled.
- GeneratorEntity.Generator.ControlTick: what happens to a signal after it is handed to the client is in `Fleet`, not in the object.
- OrderEntity.OrderWorkflow.Await: one method stands for all the saga's awaits, told apart by their point.
- DispatchRefinement.ChainMatchesSingleRun: made-up couriers are compared only as made up, since their numbers restart with each run.
- DispatchSafety.SyntheticCouriersDistinct: says nothing across runs, where the numbers do repeat.
- DispatchRecovery.RegionRecovers: the completions are counted, not timed; how long an activity takes is left to the server.
