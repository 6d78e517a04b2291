# Drone delivery simulation — a Dafny model of its core

This project models the core of a C++ campus delivery simulator. Its main pieces
are:

- **The simulation model.** It creates entities from their JSON descriptions and keeps them in an id-ordered map. It schedules package deliveries into a priority-sorted queue and changes a package's priority. It marks entities for removal and sweeps them at the end of a tick.
- **The drones.** The leader drone has a battery, a charging station and a mid-flight handoff to helper drones. The helper drone answers handoff requests. The generic drone only delivers.
- **The roaming entities.** These are the helicopter with its mile counter, the human who visits Keller hall, and the airplane that crosses the map.
- **The decorators.** The colour decorator derives a drone's hue from its progress. The three air-traffic decorators reroute an entity and announce the end of a reroute.
- **The air-traffic controller.** Once per tick it predicts collisions between every pair of flying entities and reroutes one of each pair.
- **The telemetry store.** It keeps per-entity metrics that accumulate over the run.
- **The publisher.** It forwards every entity's messages to its observers.

The repository carries two copies of the package logic that disagree. The team copy
leaves `pickedUp` alone in `initDelivery` and names the default priority "Standard".
The service copy sets `pickedUp` there and names it "Stanard". Both are modelled,
chosen by `Packages.Variant`.

Everything is pure. A `Model.World` value holds:

- the entity map;
- the delivery queue;
- the set of ids marked for removal;
- the ATC registry;
- the telemetry store;
- the messages sent to the view;
- the id counter.

Pointers become ids. The simulator dereferences pointers that may be null or
dangling: the front of the queue, a removed helper, a package a drone has dropped, a
null slot of the map. Each such read returns a `Model.Result`. Its `Crash` case names
the undefined behaviour the simulator would run into, so the error paths are part of
every contract rather than excluded by preconditions. A `chargeBattery` call that
would loop forever is likewise a `Crash(ChargeHang)`.

Ordered C++ containers (`std::map<int, …>`, `std::set<…>`) are visited in ascending
key order (`Common.Ascending`). Pointer-keyed sets and maps are keyed by entity id, so
the model fixes one particular address order.

Geometry, path following and randomness come in from outside:

- `Common.Geometry` supplies lengths, unit vectors and trigonometry.
- `Common.Motion` is what one tick of the active path leg does.
- `Common.Draws` are the two random fractions of a tick.
- `Model.Tick` bundles all three with `dt`.

## Model

| member | source | states |
|---|---|---|
| Common.ContainsInfix | service/src/simulationmodel/entity/HelperDrone.cc:136 | `find` succeeds on any string holding the pattern as an infix, whatever precedes and follows it |
| Common.Clamp01 | service/src/simulationmodel/entity/decorator/DroneColorDecorator.cc:70 | the result lies in [0, 1], equals the input inside that range and saturates at the nearer bound outside it |
| Common.Least | service/src/simulationmodel/observer/IPublisher.cc:30-33 | `begin()` of an ordered set is a member of the set that no other member precedes |
| Common.Ascending | service/src/simulationmodel/SimulationModel.cc:284 | the visiting order of an ordered map's keys: every key exactly once, strictly increasing |
| Common.DecimalString | service/src/simulationmodel/entity/Helicopter.cc:38-39 | `std::to_string` of a counter is a non-empty run of digits without a leading zero |
| Common.DecimalRoundTrip | service/src/simulationmodel/entity/Helicopter.cc:38-39 | reading the printed mile count back as a decimal number gives the count |
| Telemetry.Fresh | service/src/simulationmodel/singleton/DataCollectionManager.cc:17-22 | the store the singleton starts with holds no logs and no names |
| Telemetry.CreateLog | service/src/simulationmodel/singleton/DataCollectionManager.cc:24-42 | a null entity or an id already logged changes nothing; otherwise the id gets an empty log, keeps a name recorded earlier or records the new one, and every other entry is untouched |
| Telemetry.LogEvent | service/src/simulationmodel/singleton/DataCollectionManager.cc:71-87 | an unlogged id is ignored; otherwise only that id's metric changes, to its previous value (zero if absent) plus the delta |
| Telemetry.RemoveEntity | service/src/simulationmodel/singleton/DataCollectionManager.cc:89-95 | the id's log is gone, every other log and every name is kept, and an unlogged id is a no-op |
| Telemetry.LogAll | service/src/simulationmodel/singleton/DataCollectionManager.cc:71-87 | a batch of `logEvent` calls never creates or drops a log and never renames |
| Telemetry.LogAllSums | service/src/simulationmodel/singleton/DataCollectionManager.cc:75-82 | after a batch, a logged metric equals its old value plus the sum of every delta reported for it, and it exists exactly when it existed before or was reported |
| Telemetry.CreateThenLog | service/src/simulationmodel/singleton/DataCollectionManager.cc:24-31 | for a newly logged entity each metric is the exact sum of what was reported since creation |
| Telemetry.RemoveThenCreateKeepsName | service/src/simulationmodel/singleton/DataCollectionManager.cc:28-30 | removal drops the log but not the name, so re-creating an id starts an empty log under the old name |
| Telemetry.CreateAndRemoveIdempotent | service/src/simulationmodel/singleton/DataCollectionManager.cc:24-95 | creating a log twice, or removing one twice, is the same as doing it once |
| Publisher.AddObserver | service/src/simulationmodel/observer/IPublisher.cc:5 | the observer set gains the observer; helper subscriptions are untouched |
| Publisher.AddHelperObserver | service/src/simulationmodel/observer/IPublisher.cc:7-11 | the helper set gains the helper; ordinary observers are untouched |
| Publisher.RemoveObserver | service/src/simulationmodel/observer/IPublisher.cc:13 | the observer set loses the observer; helper subscriptions are untouched |
| Publisher.RemoveHelperObserver | service/src/simulationmodel/observer/IPublisher.cc:15-17 | the helper set loses the helper; ordinary observers are untouched |
| Publisher.AddIdempotentRemoveAbsent | service/src/simulationmodel/observer/IPublisher.cc:5-17 | subscribing twice is subscribing once, and removing a non-subscriber changes nothing |
| Publisher.NotifyObservers | service/src/simulationmodel/observer/IPublisher.cc:19-23 | exactly one `notify(msg)` per observer, each observer reached once |
| Publisher.HelperCalls | service/src/simulationmodel/observer/IPublisher.cc:25-28 | one `notifyWithPublisher(msg, self)` per subscribed helper, each reached once, the least id first |
| Publisher.NotifyHelperObservers | service/src/simulationmodel/observer/IPublisher.cc:25-34 | no helpers means no calls; otherwise the helper calls are followed by one plain `notify` to the first helper in set order |
| Colour.Initial | service/src/simulationmodel/entity/decorator/DroneColorDecorator.cc:3-4 | a new colour decorator shows the given colour and has no reference distances yet |
| Colour.Progress | service/src/simulationmodel/entity/decorator/DroneColorDecorator.cc:67-70 | progress is in [0, 1]: the clamped `1 - remaining / reference`, and the IEEE outcomes for a zero reference |
| Colour.IdleHue | service/src/simulationmodel/entity/decorator/DroneColorDecorator.cc:85-107 | without a package: pink or purple when unavailable, cyan or blue when available, the first of each pair exactly for helpers |
| Colour.Update | service/src/simulationmodel/entity/decorator/DroneColorDecorator.cc:37-109 | full saturation and half lightness always; with a package, hue in [0, 60] before pickup and [60, 120] after, with reference distances fixed at first sight; without one, the idle hue and cleared references |
| Colour.ShadowedFlagsPinColours | service/src/simulationmodel/entity/decorator/DroneColorDecorator.cc:65-107 | reading the never-written `Drone` flags, a leader or helper only ever shows blue or cyan when idle and red-to-yellow with a package, never purple, pink or green |
| Reroute.Initial | service/include/simulationmodel/entity/decorator/FlyingEntityDecorator.h:48-50 | a new ATC decorator is not rerouted, has no reroute leg, and its clock is past the announce window |
| Reroute.Target | service/src/simulationmodel/entity/decorator/DroneATCDecorator.cc:9-16 | the target is the position moved along the deflected direction by the kind's reach; a drone's target keeps its altitude |
| Reroute.Reroute | service/src/simulationmodel/entity/decorator/HelicopterATCDecorator.cc:6-21 | a reroute replaces any pending leg with one from the position to the deflected target and sets the flag; the clock is untouched |
| Reroute.Tick | service/src/simulationmodel/entity/decorator/HelicopterATCDecorator.cc:23-40 | the wrapped entity is updated exactly when no reroute leg is pending, with the clock advanced by `dt`; a completed leg clears the reroute and is announced only past the window, resetting the clock |
| Reroute.FirstRerouteAnnounced | service/src/simulationmodel/entity/decorator/HelicopterATCDecorator.cc:26-34 | the first reroute a new decorator completes is always announced |
| Reroute.ClockCountsDelegatedTime | service/src/simulationmodel/entity/decorator/HelicopterATCDecorator.cc:36-38 | with no announcement, the clock grows by exactly the time of the ticks that were handed to the wrapped entity |
| Reroute.SilentWithinGap | service/src/simulationmodel/entity/decorator/HelicopterATCDecorator.cc:27-31 | while delegated time keeps the clock within 5, no completed reroute is announced |
| Entities.FreshDroneBase | team-001-41-finalproject-dev/service/src/simulationmodel/entity/Drone.cc:16 | a new drone is available, not carrying, and has no package |
| Entities.NewLeader | service/src/simulationmodel/entity/LeaderDrone.cc:16-18 | a new leader is available with a full battery, no legs and no handoff responses |
| Entities.NewHelper | service/src/simulationmodel/entity/HelperDrone.cc:18-20 | a new helper is available, not carrying, with no legs |
| Entities.NewGeneric | team-001-41-finalproject-dev/service/src/simulationmodel/entity/Drone.cc:16 | a new generic drone has the fresh drone members and no legs |
| Entities.NewHelicopter | service/src/simulationmodel/entity/Helicopter.cc:10-12 | a new helicopter has no leg, no miles and no distance, and last stood where it stands |
| Entities.NewHuman | team-001-41-finalproject-dev/service/src/simulationmodel/entity/Human.cc:13 | a new human has no leg, has not visited Keller hall and has no distance |
| Entities.NewAirplane | team-001-41-finalproject-dev/service/src/simulationmodel/entity/Airplane.cc:13-15 | a new airplane has no leg and no distance, and last stood where it stands |
| Entities.GettersReachInnermost | team-001-41-finalproject-dev/service/include/simulationmodel/entity/decorator/IEntityDecorator.h:36-66 | through any stack of decorators, id, name, position, direction and speed are those of the innermost entity |
| Entities.SetPosition | team-001-41-finalproject-dev/service/include/simulationmodel/entity/decorator/IEntityDecorator.h:71 | the position read back is the one set, and the layers, id, name and direction are kept |
| Entities.SetDirection | team-001-41-finalproject-dev/service/include/simulationmodel/entity/decorator/IEntityDecorator.h:76 | the direction read back is the one set, and the layers, id, name and position are kept |
| Entities.LinkModel | team-001-41-finalproject-dev/service/include/simulationmodel/entity/decorator/IEntityDecorator.h:29-31 | linking reaches the innermost entity and changes nothing else |
| Entities.AddObserver | team-001-41-finalproject-dev/service/include/simulationmodel/entity/decorator/IEntityDecorator.h:96 | subscribing through the decorators subscribes the innermost entity's publisher and changes nothing else |
| Entities.RemoveObserver | team-001-41-finalproject-dev/service/include/simulationmodel/entity/decorator/IEntityDecorator.h:101-103 | unsubscribing through the decorators unsubscribes from the innermost entity's publisher and changes nothing else |
| Packages.NewPackage | team-001-41-finalproject-dev/service/include/simulationmodel/entity/Package.h:151-158 | a new package requires delivery and has no owner and no priority; it is not picked up, not delivered and not scheduled |
| Packages.SetPriority | team-001-41-finalproject-dev/service/src/simulationmodel/entity/Package.cc:26-33 | the strategy is installed exactly while the package is neither picked up nor delivered, and nothing but the priority ever changes |
| Packages.Level | team-001-41-finalproject-dev/service/src/simulationmodel/entity/Package.cc:42-45 | the strategy's level, or 1 without one |
| Packages.PriorityName | service/src/simulationmodel/entity/Package.cc:34-37 | the strategy's name, or the copy's default: "Standard" in the team copy, "Stanard" in the service copy |
| Packages.MarkPickedUp | team-001-41-finalproject-dev/service/src/simulationmodel/entity/Package.cc:47 | sets picked-up and nothing else |
| Packages.MarkDelivered | team-001-41-finalproject-dev/service/src/simulationmodel/entity/Package.cc:50 | sets delivered and nothing else |
| Packages.InitDelivery | service/src/simulationmodel/entity/Package.cc:44-50 | the robot becomes the owner and stops requesting; the package no longer requires delivery and heads for the robot; the service copy also marks it picked up; priority, flags and identity are kept |
| Packages.Receive | service/src/simulationmodel/entity/Robot.cc:13 | the robot holds the package and nothing else changes |
| Packages.ServiceInitFreezesPriority | service/src/simulationmodel/entity/Package.cc:21-50 | in the service copy no priority change has any effect once a delivery is initialised |
| Packages.TeamInitKeepsPriorityOpen | team-001-41-finalproject-dev/service/src/simulationmodel/entity/Package.cc:26-59 | in the team copy an open package can still be re-prioritised after its delivery is initialised |
| Packages.PriorityFrozenOnceCarried | team-001-41-finalproject-dev/service/src/simulationmodel/entity/Package.cc:26-52 | once picked up or delivered a package stays so, and its priority never changes again, whatever operations follow |
| DeliveryQueue.SortBy | service/src/simulationmodel/SimulationModel.cc:268-273 | the result is a permutation of the queue in non-decreasing level order |
| DeliveryQueue.EraseFirst | service/src/simulationmodel/SimulationModel.cc:301-307 | exactly one occurrence of the id is removed, and a queue without it is unchanged |
| DeliveryQueue.EraseFirstSplices | service/src/simulationmodel/SimulationModel.cc:301-307 | the removed occurrence is the first one, and every other entry keeps its relative place |
| DeliveryQueue.PushAndSort | service/src/simulationmodel/SimulationModel.cc:262-263 | pushing and sorting gives exactly the old entries plus the new one, in level order |
| Model.HandOff | team-001-41-finalproject-dev/service/src/simulationmodel/entity/Package.cc:61-65 | without an owner nothing happens; with one, it succeeds exactly when the owner is a live robot, which then holds the package; no slot is added or emptied |
| Model.Say | service/src/simulationmodel/SimulationModel.cc:382-386 | the message is appended to what the view has received and nothing else changes |
| Model.DeliverNotes | service/src/simulationmodel/entity/HelperDrone.cc:118-120 | plain notifications change only the view's messages, and when the model is the only target the view gets them all in order |
| Model.Announce | service/src/simulationmodel/observer/IPublisher.cc:19-23 | an entity observed only by the model sends its message straight to the view; nothing but the view's messages ever changes |
| Model.SortQueue | service/src/simulationmodel/SimulationModel.cc:268-273 | the sorted queue is a permutation in level order; sorting crashes exactly when two or more entries are queued and one is no longer a live package |
| Battery.Deplete | service/src/simulationmodel/entity/LeaderDrone.cc:72-77 | the level drops by 0.01 per unit of time and is floored at zero |
| Battery.DepleteStaysInRange | service/src/simulationmodel/entity/LeaderDrone.cc:72-77 | for forward time, draining keeps a level in [0, 100] and never raises it |
| Battery.DepleteTwice | service/src/simulationmodel/entity/LeaderDrone.cc:129-138 | the double drain of a carrying tick equals one drain over twice the time |
| Battery.ChargeBattery | service/src/simulationmodel/entity/LeaderDrone.cc:78-86 | the loop returns exactly when `dt` is positive or the battery is already full, and then leaves it at 100 |
| Battery.Charged | service/src/simulationmodel/entity/LeaderDrone.cc:78-86 | the loop's steps of `0.01 * dt` followed by the clamp of the overshoot end at exactly 100, from any level at which the loop returns |
| Handoff.ReceiveHelperResponse | service/src/simulationmodel/entity/LeaderDrone.cc:259-263 | a null drone is ignored; otherwise the drone's distance is recorded or overwritten and every other answer kept |
| Handoff.Scan | service/src/simulationmodel/entity/LeaderDrone.cc:284-299 | a scan with no choice yet and at least one answer picks an answering helper |
| Handoff.SelectClosest | service/src/simulationmodel/entity/LeaderDrone.cc:265-306 | null exactly when no helper answered, else one that did |
| Handoff.ScanFindsFirstClosest | service/src/simulationmodel/entity/LeaderDrone.cc:284-299 | over ascending keys with non-negative distances, the scan ends on the first helper at the least distance |
| Handoff.SelectClosestIsFirstClosest | service/src/simulationmodel/entity/LeaderDrone.cc:265-306 | with genuine distances, the chosen helper is at the least distance and first in map order among ties |
| Handoff.ResponsesOnlyGrow | service/src/simulationmodel/entity/LeaderDrone.cc:259-263 | answers accumulate, so once any helper has answered some helper is always selectable |
| Roaming.RandomDestination | service/src/simulationmodel/entity/Helicopter.cc:49-52 | a roaming target keeps the altitude and lies in x in [-1400, 1500], z in [-800, 800] for draws in [0, 1] |
| Roaming.HelicopterUpdate | service/src/simulationmodel/entity/Helicopter.cc:18-55 | an idle helicopter gets a new random leg; a moving one accumulates distance, and past 1625 counts a mile modulo 2^32, resets, reports and logs it |
| Roaming.HelicopterMilesAgree | service/src/simulationmodel/entity/Helicopter.cc:36-46 | over any run the mile counter advances by the number of mile messages, the logged miles equal that number, and the logged timesteps equal the tick count |
| Roaming.HelicopterCounterAgrees | service/src/simulationmodel/entity/Helicopter.cc:37-39 | over any run the mile counter, an unsigned 32-bit value, advances by one for every mile message sent, wrapping at 2^32 |
| Roaming.HelicopterAccumulatorBounded | service/src/simulationmodel/entity/Helicopter.cc:33-46 | the distance carried over between ticks never exceeds a mile |
| Roaming.HumanUpdate | team-001-41-finalproject-dev/service/src/simulationmodel/entity/Human.cc:19-54 | an idle human gets a new leg only when linked to a model; a moving one accumulates distance, and the Keller message and its log come exactly on entering the 85-unit radius |
| Roaming.HumanVisitsAgree | team-001-41-finalproject-dev/service/src/simulationmodel/entity/Human.cc:38-45 | over any run the logged visits equal the number of Keller messages, each naming the human |
| Roaming.StayingNearIsSilent | team-001-41-finalproject-dev/service/src/simulationmodel/entity/Human.cc:38-45 | two moving ticks inside the radius announce at most once, and never on the second |
| Roaming.Respawn | team-001-41-finalproject-dev/service/src/simulationmodel/entity/Airplane.cc:48-67 | after arrival the airplane restarts at the opposite z edge at altitude 700, heading for the other edge, with x within the map for draws in [0, 1] |
| Roaming.FirstDestination | team-001-41-finalproject-dev/service/src/simulationmodel/entity/Airplane.cc:69-77 | the first leg goes to the corner across the z axis at altitude 700 |
| Roaming.AirplaneUpdate | team-001-41-finalproject-dev/service/src/simulationmodel/entity/Airplane.cc:21-78 | the airplane always has a leg afterwards and never messages; moving adds distance, and an arrival respawns it and logs one arrival |
| Roaming.AirplaneArrivalsCounted | team-001-41-finalproject-dev/service/src/simulationmodel/entity/Airplane.cc:40-43 | over any run the logged arrivals equal the number of completed legs, and nothing is said |
| Roaming.AirplaneAlwaysUnderway | team-001-41-finalproject-dev/service/src/simulationmodel/entity/Airplane.cc:26-77 | after any non-empty run the airplane has a leg |
| Roaming.LogOnlyUpdate | service/src/simulationmodel/entity/Robot.cc:7-11 | a robot's, station's or team package's tick logs one timestep and nothing else |
| Collision.WillCollide | team-001-41-finalproject-dev/service/src/simulationmodel/singleton/ATC.cc:52-96 | no collision across more than 50 units of altitude or beyond half the horizon; near-equal velocities collide exactly within 50 units; an approach outside [0, horizon] does not collide |
| Collision.StationaryNeverCollide | team-001-41-finalproject-dev/service/src/simulationmodel/singleton/ATC.cc:64-75 | two distinct stationary entities are never predicted to collide |
| Drones.BothBroadcastsAsk | service/src/simulationmodel/entity/LeaderDrone.cc:197-226 | both the handoff request and its retry carry the phrase helpers answer to |
| Drones.Held | service/src/simulationmodel/entity/LeaderDrone.cc:122 | reading the package's name succeeds exactly when the drone has a package, else it is a null-package fault |
| Drones.Follow | service/src/simulationmodel/entity/LeaderDrone.cc:133-138 | a carried package takes the drone's position and direction, and this fails exactly when it is no longer a live package |
| Drones.GenericNextDelivery | team-001-41-finalproject-dev/service/src/simulationmodel/entity/Drone.cc:23-58 | an unlinked drone or an empty queue does nothing; a dangling front crashes; otherwise the front is popped and taken with a leg to it and one on to its destination |
| Drones.GenericLegs | team-001-41-finalproject-dev/service/src/simulationmodel/entity/Drone.cc:78-109 | finishing the first leg marks pickup (and crashes without a package); finishing the second frees the drone; the queue and the map's slots are kept |
| Drones.GenericUpdate | team-001-41-finalproject-dev/service/src/simulationmodel/entity/Drone.cc:60-110 | a busy drone leaves the queue alone, and no scheduled package is lost: each is still queued or carried |
| Drones.GenericMaybeNext | team-001-41-finalproject-dev/service/src/simulationmodel/entity/Drone.cc:76 | only an available drone touches the queue, and whatever it pops it carries |
| Drones.HelperNextDelivery | service/src/simulationmodel/entity/HelperDrone.cc:27-63 | the helper takes the handed package, with legs to it and on to its destination; a dangling helper or package crashes; nothing else in the map changes |
| Drones.HelperPickup | service/src/simulationmodel/entity/HelperDrone.cc:84-93 | an unfinished leg changes nothing; a finished one sets the helper's own picked-up flag and crashes without a package |
| Drones.HelperDropOff | service/src/simulationmodel/entity/HelperDrone.cc:94-115 | on arrival the package is handed to its robot and the helper is freed; no package flag is touched |
| Drones.HelperUpdate | service/src/simulationmodel/entity/HelperDrone.cc:65-116 | one tick of a helper: pickup and drop-off as above, the `Drone`-level flags untouched, and no package flag changed |
| Drones.Replies | service/src/simulationmodel/entity/HelperDrone.cc:121-149 | the calls succeed exactly when every target is a live helper; exactly the available helpers reached by a handoff request file their distance to the leader, and other answers are kept |
| Drones.Broadcast | service/src/simulationmodel/observer/IPublisher.cc:25-34 | with no subscribed helpers nothing happens; otherwise it succeeds exactly when every subscriber is alive, the view gets the message once, and the leader's answers gain exactly the available helpers' distances |
| Drones.BroadcastReaches | service/src/simulationmodel/observer/IPublisher.cc:25-28 | the helper calls reach exactly the subscribed helpers, so those that answer are the available subscribers |
| Drones.LeaderNextDelivery | service/src/simulationmodel/entity/LeaderDrone.cc:26-63 | as for the generic drone, but the leader's own flags are the ones set |
| Drones.LeaderBegin | service/src/simulationmodel/entity/LeaderDrone.cc:88-115 | the battery drains once; a job is taken only above the critical level and is then carried; an available leader at or below it heads for the charger |
| Drones.LeaderPickup | service/src/simulationmodel/entity/LeaderDrone.cc:117-128 | finishing the leg to the package marks the package picked up in the map and the leader carrying; no package is a null-package fault |
| Drones.LeaderDeliver | service/src/simulationmodel/entity/LeaderDrone.cc:129-154 | a carrying leader drains again; on arrival the package is marked delivered and the leader is freed |
| Drones.Deliver | service/src/simulationmodel/entity/LeaderDrone.cc:149-150 | after `handOff` and `DeliveredPackage` the package is marked delivered, no slot or queue entry changes, and it fails exactly when `handOff` does |
| Drones.LeaderDropOff | service/src/simulationmodel/entity/LeaderDrone.cc:140-154 | drop-off hands the package over, marks it delivered and frees the leader; a dropped or dangling package crashes |
| Drones.LeaderCharge | service/src/simulationmodel/entity/LeaderDrone.cc:155-170 | on reaching the charger the battery is full and the leader is available unless it still carries; a charge that cannot finish is a hang |
| Drones.Abandon | service/src/simulationmodel/entity/LeaderDrone.cc:234-249 | an abandoned package goes back into the queue, which is re-sorted, and the leader drops its pickup leg |
| Drones.RequestHandoff | service/src/simulationmodel/entity/LeaderDrone.cc:198-226 | the leader gives up its package only to the closest answering helper, which is alive and then holds it; it does give it up whenever some helper answered earlier or a subscribed helper answers the request; with no answers and every subscribed helper busy, it keeps it |
| Drones.AcceptHandoff | service/src/simulationmodel/entity/LeaderDrone.cc:203-225 | with answers on record the closest helper receives the package and the leader lets go of it, and a dead closest helper is a dangling pointer; with none the leader asks again and keeps it |
| Drones.CriticalResponse | service/src/simulationmodel/entity/LeaderDrone.cc:196-249 | in an emergency while carrying, only the view is told; an unfinished pickup is abandoned with its package re-queued; no scheduled package leaves the queue |
| Drones.LeaderCritical | service/src/simulationmodel/entity/LeaderDrone.cc:190-253 | at critical battery the leader always ends unavailable, not carrying and heading for the charger |
| Drones.LeaderAct | service/src/simulationmodel/entity/LeaderDrone.cc:117-253 | the leg branch keeps the battery in [0, 100] and the queue's packages, and never writes the `Drone`-level flags |
| Drones.LeaderUpdate | service/src/simulationmodel/entity/LeaderDrone.cc:88-254 | one tick of a leader: battery stays in [0, 100], no scheduled package is lost from queue and hold, and the map's slots are kept |
| Dispatch.UpdateCore | team-001-41-finalproject-dev/service/include/simulationmodel/entity/decorator/IEntityDecorator.h:91 | the innermost entity's own update keeps its kind and id and loses no scheduled package; a non-drone touches only telemetry and messages |
| Dispatch.Sighting | service/src/simulationmodel/entity/decorator/DroneColorDecorator.cc:55-63 | the colour decorator sees the package's position and destination, and crashes on a dangling one |
| Dispatch.ReroutedPackage | service/src/simulationmodel/entity/decorator/DroneATCDecorator.cc:28-33 | the drone ATC decorator finds the package through the colour decorator; any other wrapping is a miswired downcast |
| Dispatch.Steered | service/src/simulationmodel/entity/decorator/DroneATCDecorator.cc:36 | moving along the reroute leg moves only the innermost entity and keeps the layers and package |
| Dispatch.UpdateChain | service/src/simulationmodel/entity/decorator/DroneATCDecorator.cc:25-60 | a tick through the decorators keeps the stack and id and loses no queued package; a pending reroute moves the entity without updating it, otherwise the clock advances |
| Dispatch.ShadowedDroneColours | service/src/simulationmodel/entity/decorator/DroneColorDecorator.cc:37-109 | through the whole tick a leader or helper never shows purple or pink |
| Dispatch.UpdateEntity | service/src/simulationmodel/SimulationModel.cc:285 | a robot or a team-copy package logs one timestep and a service-copy package does nothing; a decorated entity keeps its decorator stack and loses no queued package; the map's slots are kept |
| AirTraffic.RerouteChain | team-001-41-finalproject-dev/service/src/simulationmodel/singleton/ATC.cc:36-41 | rerouting an ATC-decorated entity sets its flag and keeps what it wraps; position and speed are unchanged |
| AirTraffic.Resolve | team-001-41-finalproject-dev/service/src/simulationmodel/singleton/ATC.cc:32-46 | the first of a pair that is not yet rerouted is rerouted; both are logged as potential collisions and the second gets the reroute count; if both are rerouted the first logs an unavoidable collision |
| AirTraffic.PairStep | team-001-41-finalproject-dev/service/src/simulationmodel/singleton/ATC.cc:32-47 | a pair is resolved exactly when a collision is predicted, and crashes when either pointer is dangling |
| AirTraffic.Partners | team-001-41-finalproject-dev/service/src/simulationmodel/singleton/ATC.cc:31-48 | the inner loop only reroutes idle entities, and crashes exactly when a dangling entry is reached |
| AirTraffic.Pass | team-001-41-finalproject-dev/service/src/simulationmodel/singleton/ATC.cc:30-49 | the outer loop only reroutes idle entities, and crashes exactly when a pair with a dangling entry exists |
| AirTraffic.Traffic | team-001-41-finalproject-dev/service/src/simulationmodel/singleton/ATC.cc:26-50 | the pass changes only telemetry and reroute flags, and crashes exactly when two or more entities are registered and one is deleted |
| AirTraffic.CheckTraffic | team-001-41-finalproject-dev/service/src/simulationmodel/singleton/ATC.cc:26-50 | the nested index loops compute the same pass |
| AirTraffic.CalmTrafficChangesNothing | team-001-41-finalproject-dev/service/src/simulationmodel/singleton/ATC.cc:30-49 | when no pair is predicted to collide, the pass changes nothing at all |
| AirTraffic.TrafficReroutesOnlyIdle | team-001-41-finalproject-dev/service/src/simulationmodel/singleton/ATC.cc:36-46 | a rerouted entity is left alone; any entity that changes was idle and is now rerouted, in the same place at the same speed |
| Simulation.DroneChain | service/src/simulationmodel/factory/DroneFactory.cc:10-18 | a drone is wrapped in a colour decorator (0, 0, 100) under a fresh drone ATC decorator |
| Simulation.Manufacture | service/src/simulationmodel/factory/DroneFactory.cc:7-25 | an entity is built exactly for a known type string, around a fresh entity carrying the description's id and name |
| Simulation.Subscribe | service/src/simulationmodel/SimulationModel.cc:96-108 | the helper is added to the helper observers of the leader found by peeling both decorators |
| Simulation.WireHelper | service/src/simulationmodel/SimulationModel.cc:91-112 | every other entry of leader shape gains the helper as a helper observer; every other entry is left alone |
| Simulation.Attach | service/src/simulationmodel/SimulationModel.cc:55-58 | a decorated entity is linked to the model and observed by it; packages and robots are untouched |
| Simulation.CreateEntity | service/src/simulationmodel/SimulationModel.cc:48-126 | an unknown type changes nothing; otherwise a fresh live id holds the named entity, linked and observed by the model; flying kinds join the ATC; a log is created; a new helper is subscribed to every existing leader; nothing else changes |
| Simulation.CreateKeepsIdsFresh | service/src/simulationmodel/SimulationModel.cc:57 | a new entity never lands on a live slot, and every live entity stays live |
| Simulation.Find | service/src/simulationmodel/SimulationModel.cc:219-228 | the scan returns the first matching entry in id order, or none, or crashes on a null entry before any match |
| Simulation.FindOverMap | service/src/simulationmodel/SimulationModel.cc:219-240 | over the whole map, a scan without nulls succeeds, and it finds nothing exactly when nothing matches |
| Simulation.Priority | service/src/simulationmodel/SimulationModel.cc:243-255 | "NoRush" and "Expedited" choose their strategies and every other string falls back to standard |
| Simulation.QueueInfo | service/src/simulationmodel/SimulationModel.cc:360-380 | reading the queue report succeeds exactly when every queued entry is a live package |
| Simulation.Claim | service/src/simulationmodel/SimulationModel.cc:243-258 | the package is owned by the robot, scheduled and no longer requires delivery; its priority is set only if it had none and was open; the robot stops requesting; nothing else changes |
| Simulation.Bind | service/src/simulationmodel/SimulationModel.cc:257-263 | the package is booked with its search strategy and queued once more in level order; this fails exactly when the queue report meets a dangling entry |
| Simulation.ScheduleTrip | service/src/simulationmodel/SimulationModel.cc:210-266 | with no nulls and a healthy queue, a trip is booked exactly when a requesting robot and a waiting package of that name exist; a booking queues exactly that package in level order; otherwise nothing changes |
| Simulation.Reprioritise | service/src/simulationmodel/SimulationModel.cc:328-353 | only the package's priority changes, and the queue is re-sorted as a permutation |
| Simulation.FirstHit | service/src/simulationmodel/SimulationModel.cc:320-322 | the entry a range-for over the map meets first among those a query picks out: the least live matching id |
| Simulation.FindIsFirstHit | service/src/simulationmodel/SimulationModel.cc:320-322 | a scan of the map that finds a match finds the first one in id order |
| Simulation.Lookup | service/src/simulationmodel/SimulationModel.cc:320-322 | the scan yields the first matching entry in id order, nothing exactly when no live entry matches, and crashes only when the map holds a null entry |
| Simulation.Retune | service/src/simulationmodel/SimulationModel.cc:323-353 | the answer is true exactly when the package is scheduled, not picked up and the priority is "Standard", "NoRush" or "Expedited"; then only that package's priority changes and the queue is re-sorted; a false answer changes nothing |
| Simulation.ChangePackagePriority | service/src/simulationmodel/SimulationModel.cc:318-358 | the first package of that name in id order decides: with no null entry and a healthy queue the answer is true exactly when it is scheduled, not picked up and the priority is known, and then only it changes and the queue is re-sorted; a false answer, an absent name or an unknown priority changes nothing |
| Simulation.RemoveEntity | service/src/simulationmodel/SimulationModel.cc:128 | removal only marks the id |
| Simulation.RemoveFromSim | service/src/simulationmodel/SimulationModel.cc:298-316 | afterwards the id is not live; a live entity leaves the map, one queue occurrence and the telemetry; an unknown id gains a null slot |
| Simulation.Sweep | service/src/simulationmodel/SimulationModel.cc:289-291 | every marked id ends not live, marked ids unknown before end as null slots, and unmarked slots are untouched |
| Simulation.UpdateAll | service/src/simulationmodel/SimulationModel.cc:284-287 | the entity loop succeeds only if no slot it reaches is null, and it keeps the map's slots |
| Simulation.Settle | service/src/simulationmodel/SimulationModel.cc:289-292 | marked ids are swept and the mark set is cleared; unmarked slots are untouched |
| Simulation.Update | service/src/simulationmodel/SimulationModel.cc:283-294 | a tick that succeeds had no null slot, leaves no marks, removes every marked entity, keeps every unmarked live one, and creates none |
| Simulation.RunUpdate | service/src/simulationmodel/SimulationModel.cc:283-294 | the loop over the map, the removal loop and the ATC pass compute the tick |
| Simulation.UnknownRemovalPoisons | service/src/simulationmodel/SimulationModel.cc:298-300 | marking an id the map does not hold leaves a null slot that makes every later tick crash |
| Simulation.RemovalIsDeferred | service/src/simulationmodel/SimulationModel.cc:128 | a marked live entity is gone after the next tick |
| Simulation.UpdateKeepsIdsFresh | service/src/simulationmodel/SimulationModel.cc:283-294 | a tick allocates no ids, so every live id stays below the counter |
| Simulation.LateLeaderMissesHelper | service/src/simulationmodel/SimulationModel.cc:91-112 | a helper created before a leader is never subscribed to it |

## Left out

- Path following (Beeline, A*, DFS, BFS and Dijkstra strategies, and the routing graph) is not modelled. One tick of the active leg is an input (`Common.Motion`), and a leg is only its start and target. The search-strategy name is stored but does not choose a path.
- Square roots, trigonometry and vector normalisation come in as `Common.Geometry`. `rand()` comes in as `Common.Draws`. `double` and `float` arithmetic is modelled as exact reals. Only `Colour.Progress` spells out IEEE behaviour, for its division by zero.
- `std::cout`, `std::cerr`, `sendEventToView`, `controller.addEntity`, `updateEntity` and `removeEntity` on the controller are I/O and are not modelled. `notify` on the model is recorded as a message to the view.
- Memory management is not modelled: `delete`, destructors, and the `FlyingEntityDecorator` destructor. A deleted entity simply leaves the map, and a later read of it is a `Dangling` crash.
- `DataCollectionManager::exportLog` writes a file named from the clock and is left out. The `getInstance` singletons of the store and of `ATC` are a field of the world.
- `ATC::chooseEntity` is never called by the simulator and is left out.
- Pointer-keyed `std::set`/`std::map` order (observers, helper observers, handoff responses) is the address order. The model uses ascending entity id, one of the orders an allocator could produce.
- The factories for packages, robots, humans and helicopters are not part of this model. `Simulation.Manufacture` assumes they answer to "package", "robot", "human" and "helicopter". It assumes the helicopter factory wraps a helicopter in its ATC decorator, and that a robot starts out requesting a delivery.
- Entity ids come from a counter in `IEntity`, which is not part of this model. Each decorator constructs a base object of its own, so `Simulation.CreateEntity` advances the counter once per constructed object.
- The JSON description is the record `Simulation.Details`. The "type" key is taken to be present. The `getColor` string formatting and `setColor` through the decorators are left out.
- `Simulation.QueueInfo` models only the dereference of every queued package in `getDeliveryQueueInfo`, not the JSON it builds.
- A decorator stack is assumed to have the shape the factories build. Any other shape that reaches a decorator's downcast is the fault `Miswired`.
- Packages and robots are never decorated and carry no publisher. Their `linkModel` and `addObserver` calls in `createEntity` are not modelled.
- `Simulation.Update` sweeps the marked ids after the entity loop in one step. It does not model an entity marking another for removal in the middle of the loop; no modelled entity does.
- Drones.Answers: `HelperDrone::notifyWithPublisher` also forwards the message to the view when the publisher is null, and ignores a publisher that is not a `LeaderDrone`. Neither branch is modelled, because the only broadcaster is `LeaderDrone::update`, which always passes itself as the publisher.
- Dispatch.UpdateEntity: keeping the map's slots is stated only for an id that is live in the map, which is how the tick loop calls it.
- Drones.GenericUpdate, Drones.HelperUpdate and Drones.LeaderUpdate: the running `distanceTraveled` total and its two telemetry calls per tick are modelled. The messages are modelled too, but are stated only through the frame properties, not message by message.
