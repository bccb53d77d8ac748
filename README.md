# Beredskap360 simulators in Dafny

Beredskap360 is a browser dashboard for an emergency-preparedness programme.
Its only logic lives in two in-memory simulation services. Each keeps lists of
records and changes them in place on timer ticks:

- `DigitalTwinService` (module `DigitalTwins`, `digital_twin_service.dfy`) is the
  travel-safety store. It holds one "digital twin" per travelling employee: the
  employee, travel details, weather, traffic, nearby critical events and a
  derived risk level. Its ticks do four things. Weather and traffic take
  clamped random-walk steps. A traffic status is derived from the delay. New
  critical events are prepended to a history of at most 20. Each twin's risk
  level is recomputed from the events whose location string equals its
  current location name, and the employee status follows the risk level.
- `SimulatedDataService` (module `SimulatedData`, `simulated_data_service.dfy`)
  is the exercise-dashboard simulator. On its update tick, running agents
  finish tasks, active participants are seen, and active exercises progress.
  It keeps a newest-first notification feed of at most 20 entries, marks
  notifications read one way only, and answers queries for unread items and
  statistics.
- `Common` (`common.dfy`) holds what both use: clamps, draws and times, the
  decimal ids, the bounded prepend, and `filter` / `filter(..).length`.

Each service is a `class`. Record lists that the source mutates element by
element are `array` fields. The `forEach` callbacks become `for` loops with
invariants. Lists whose length changes (the event history, the notification
feed) are `seq` fields that the methods reassign. There is one method per
timer callback. A pure function gives the new value of one record, and the
record's properties are proved on that function. A method's `ensures` ties
every element of its array to that function applied to the old element.

Randomness and the clock are parameters. Every `Math.random()` value is a
`real` draw with `0 <= r < 1`. `Date.now()` and `new Date()` are one integer
`now` in milliseconds per call. A `Date` built from a fractional number keeps
the value truncated toward zero (`Common.TimeValue`).

Two behaviours of the code worth knowing:

- The seed critical events are placed at "Manila, Philippines",
  "Bangkok, Thailand" and "Tokyo, Japan", while the locations are named by
  city alone ("Bangkok", "Tokyo", ...). Exact matching therefore finds no seed
  event near any twin (`SeedEventsMatchNoTwin`). The first risk update runs
  after the first generated event. After that first update, and until the
  next generated event, Erik Johansen's nearby events are that event if it
  is at "Bangkok" and nothing otherwise, so his
  risk level is that event's severity or Low (`FirstEventAfterSeed`). Until
  then he keeps the seeded Medium risk level, and the status tick gives him
  Warning (`SeedBangkokScenario`).
- Exercise progress is a real number, not an integer: the increment is
  `Math.random() * 5`.

## Model

| member | source | states |
|---|---|---|
| `Common.Clamp` | src/services/digitalTwinService.ts:367-369 | `Math.max(lo, Math.min(hi, x))` lies in [lo, hi], is x when x is in range, and is the violated bound otherwise |
| `Common.Min` | src/services/simulatedDataService.ts:260 | `Math.min(a, b)` is at most both arguments and is one of them |
| `Common.Max` | src/services/digitalTwinService.ts:367-369 | `Math.max(a, b)` is at least both arguments and is one of them |
| `Common.AtLeastZero` | src/services/digitalTwinService.ts:382 | `Math.max(0, n)` on a count is n when n is non-negative and 0 otherwise, never below n |
| `Common.PickIndex` | src/services/digitalTwinService.ts:429-430 | `Math.floor(r * n)` for a draw is a valid position in a list of length n > 0 |
| `Common.TimeValue` | src/services/simulatedDataService.ts:253 | the time value of `new Date(x)` is x truncated toward zero (within one millisecond, on the side of zero) |
| `Common.TimeWithin` | src/services/simulatedDataService.ts:253 | `new Date(now - r * span)` for a draw lies in [now - span, now] |
| `Common.NatToString` | src/services/digitalTwinService.ts:433 | the decimal text of a count is non-empty, all digits, and has no leading zero (it starts with '0' exactly for 0) |
| `Common.IntToString` | src/services/digitalTwinService.ts:433 | `${n}` is non-empty and starts with '-' exactly for negative n |
| `Common.NatToStringRoundTrip` | src/services/digitalTwinService.ts:433 | reading the digits back gives the number |
| `Common.NatToStringInjective` | src/services/digitalTwinService.ts:433 | two counts with the same decimal text are equal |
| `Common.IntToStringInjective` | src/services/simulatedDataService.ts:287 | two clock values give the same id text only if they are equal |
| `Common.BoundedPrepend` | src/services/simulatedDataService.ts:295-300 | unshift and trim to cap: new item at index 0, length min(old + 1, cap), the rest is the old list's prefix in order |
| `Common.BoundedPrependBound` | src/services/digitalTwinService.ts:443-449 | a history within the cap stays within it; a full one keeps its length and drops its oldest entry |
| `Common.ReverseIndex` | src/services/digitalTwinService.ts:443 | position k of the newest-first order holds the k-th arrival from the end |
| `Common.PrependEachNewest` | src/services/digitalTwinService.ts:443-448 | after any run of bounded prepends the history is the newest min(n + old, cap) entries of everything added, newest first, then the old history |
| `Common.Filter` | src/services/digitalTwinService.ts:456-458 | `filter(p)` keeps exactly the elements satisfying p and is no longer than the list |
| `Common.FilterConcat` | src/services/simulatedDataService.ts:324-326 | filtering keeps list order: it distributes over concatenation |
| `Common.Count` | src/services/digitalTwinService.ts:489-493 | a count of matching elements never exceeds the list length |
| `Common.FilterLength` | src/services/simulatedDataService.ts:345 | `filter(p).length` equals the number of elements satisfying p |
| `Common.CountDisjoint` | src/services/simulatedDataService.ts:340-341 | counts of two exclusive properties sum to at most the length |
| `Common.CountDisjoint3` | src/services/digitalTwinService.ts:489-491 | counts of three exclusive properties sum to at most the length, and to the length when every element has one |
| `Common.CountEvery` | src/services/digitalTwinService.ts:493 | a property every element has counts every element |
| `DigitalTwins.NextWeather` | src/services/digitalTwinService.ts:360-369 | after a weather step temperature is in [15,40], humidity in [30,95], wind in [0,50] whatever the prior values; from in range each moves at most 1 / 2.5 / 1.5; only those and the time stamp change |
| `DigitalTwins.TrafficStatusOf` | src/services/digitalTwinService.ts:385-388 | Clear exactly below 10, Moderate exactly in [10,30), Heavy exactly in [30,60), Severe exactly from 60 |
| `DigitalTwins.TrafficStatusMonotone` | src/services/digitalTwinService.ts:385-388 | a longer delay never gives a milder status |
| `DigitalTwins.IncidentStep` | src/services/digitalTwinService.ts:377 | `Math.floor((r - 0.7) * 2)` is in {-2, -1, 0}: -2 exactly for r < 0.2, 0 exactly from 0.7 |
| `DigitalTwins.NextTraffic` | src/services/digitalTwinService.ts:375-388 | after a traffic step delay is in [0,120], incidents in [0, max(0, old)] and at least old - 2, status is the band of the clamped delay; only those and the time stamp change |
| `DigitalTwins.AnyOfSeverity` | src/services/digitalTwinService.ts:462-468 | `some(e => e.severity === s)` is true exactly when some listed event has severity s |
| `DigitalTwins.HighestSeverityIsMax` | src/services/digitalTwinService.ts:462-470 | the reference risk level is at least every listed severity, and is Low or the severity of a listed event |
| `DigitalTwins.RiskLevelOf` | src/services/digitalTwinService.ts:462-470 | the Critical / High / Medium / Low cascade of `some` tests equals the highest severity present |
| `DigitalTwins.Reassessed` | src/services/digitalTwinService.ts:455-470 | nearby events are exactly the history filtered by exact location-name equality, in history order; risk is their highest severity, Low when none; nothing else changes |
| `DigitalTwins.EmployeeStatusFor` | src/services/digitalTwinService.ts:398-401 | Danger exactly for Critical, Warning exactly for High or Medium, Safe exactly for Low, never Unknown |
| `DigitalTwins.EmployeeStatusMonotone` | src/services/digitalTwinService.ts:398-401 | a higher risk level never gives a calmer status |
| `DigitalTwins.StatusRefreshed` | src/services/digitalTwinService.ts:393-403 | last seen within the past 30 minutes, status derived from the unchanged risk level, update time set, nothing else changes |
| `DigitalTwins.EventTemplates` | src/services/digitalTwinService.ts:408-427 | three event templates, none of them Critical |
| `DigitalTwins.NewRandomEvent` | src/services/digitalTwinService.ts:429-441 | the generated event is never Critical, is at one of the location names, has id `event-<now>`, starts now with no end time, radius in [10,110) |
| `DigitalTwins.DigitalTwinService.constructor` | src/services/digitalTwinService.ts:93-320 | the seed locations, three seed events and three seed twins, with the history bound and invariant holding |
| `DigitalTwins.DigitalTwinService.UpdateWeatherData` | src/services/digitalTwinService.ts:357-371 | each twin changes only in its weather, by one `NextWeather` step, and every twin ends in range |
| `DigitalTwins.DigitalTwinService.UpdateTrafficData` | src/services/digitalTwinService.ts:373-390 | each twin changes only in its traffic, by one `NextTraffic` step: delay in [0,120], incidents not increased, status from the new delay |
| `DigitalTwins.DigitalTwinService.UpdateEmployeeStatus` | src/services/digitalTwinService.ts:392-405 | each twin gets its status from its risk level; no status is Unknown and no risk level changes |
| `DigitalTwins.DigitalTwinService.UpdateRiskLevels` | src/services/digitalTwinService.ts:454-472 | every twin, in place and in order, is `Reassessed` against the current history |
| `DigitalTwins.DigitalTwinService.GenerateRandomEvent` | src/services/digitalTwinService.ts:407-452 | the new event is at index 0, length becomes min(old + 1, 20), the rest is the old prefix in order, never Critical, at a location name; the bound holds; then every twin is reassessed |
| `DigitalTwins.DigitalTwinService.GetDigitalTwins` | src/services/digitalTwinService.ts:475-477 | the twins with the same length and elements, in order |
| `DigitalTwins.DigitalTwinService.GetCriticalEvents` | src/services/digitalTwinService.ts:479-481 | the history with the same length and elements, newest first |
| `DigitalTwins.DigitalTwinService.GetLocations` | src/services/digitalTwinService.ts:483-485 | the locations with the same length and elements |
| `DigitalTwins.DigitalTwinService.GetStats` | src/services/digitalTwinService.ts:487-503 | safe, warning and danger are the lengths of the twin lists filtered by that employee status, active events the length of the events filtered by no end time; safe + warning + danger is at most the employee count and equal to it once no status is Unknown; active events are at most all events and all of them while no end time is set |
| `DigitalTwins.SeedLocations` | src/services/digitalTwinService.ts:95-141 | five seeded locations with distinct ids |
| `DigitalTwins.SeedEvents` | src/services/digitalTwinService.ts:144-175 | three seeded events with distinct ids, none with an end time, within the history bound |
| `DigitalTwins.SeedTwins` | src/services/digitalTwinService.ts:178-320 | three seeded twins |
| `DigitalTwins.SeedTwinsConsistent` | src/services/digitalTwinService.ts:178-320 | each seeded twin belongs to its own employee, travels between two seeded locations, and its nearby events come from the seeded history |
| `DigitalTwins.SeedWeatherInRange` | src/services/digitalTwinService.ts:178-320 | every seeded twin's weather is already in the ranges the weather tick keeps |
| `DigitalTwins.SeedBangkokScenario` | src/services/digitalTwinService.ts:226-272 | Erik Johansen starts in Bangkok with exactly one nearby event, of severity Medium, and risk level Medium, so the next status tick gives Warning |
| `DigitalTwins.SeedEventsMatchNoTwin` | src/services/digitalTwinService.ts:144-175 | no seed event's location equals any seed twin's location name, so reassessment gives them no nearby events and Low risk |
| `DigitalTwins.FirstEventAfterSeed` | src/services/digitalTwinService.ts:443-460 | after the first generated event a seed twin's nearby events are that event if it is at its location name, and nothing otherwise |
| `DigitalTwins.TwentyFiveEventsAfterSeed` | src/services/digitalTwinService.ts:443-448 | twenty-five generated events after the three seeded ones leave exactly twenty, the newest at index 0 and no seed event left |
| `SimulatedData.TaskStep` | src/services/simulatedDataService.ts:246 | `Math.floor(r * 2)` is 0 or 1, and 1 exactly from r = 0.5 |
| `SimulatedData.AgentTicked` | src/services/simulatedDataService.ts:243-248 | a Running agent's task count rises by 0 or 1 and its last activity becomes now, nothing else; other agents are unchanged |
| `SimulatedData.ParticipantTicked` | src/services/simulatedDataService.ts:251-255 | an Active participant's last seen moves into the 10 minutes before now, nothing else; other participants are unchanged |
| `SimulatedData.ExerciseTicked` | src/services/simulatedDataService.ts:258-262 | an Active exercise below 100 gets progress p' with old <= p' <= 100 and p' - old < 5; all others unchanged; status never changes |
| `SimulatedData.NotificationTemplates` | src/services/simulatedDataService.ts:266-282 | three notification templates, none of kind error |
| `SimulatedData.NewRandomNotification` | src/services/simulatedDataService.ts:284-293 | the new notification is unread, stamped now, id `notif-<now>`, never of kind error |
| `SimulatedData.FirstWithId` | src/services/simulatedDataService.ts:329 | `find` gives the first position with the id, or nothing when no entry has it |
| `SimulatedData.MarkRead` | src/services/simulatedDataService.ts:328-333 | only the first notification with the id changes, to read; order and length kept; unknown id changes nothing; no read flag is cleared |
| `SimulatedData.MarkReadIdempotent` | src/services/simulatedDataService.ts:328-333 | marking the same id twice equals marking it once |
| `SimulatedData.MarkReadUnreadCount` | src/services/simulatedDataService.ts:324-333 | marking lowers the unread count by one exactly when the first match was unread |
| `SimulatedData.SimulatedDataService.constructor` | src/services/simulatedDataService.ts:66-226 | the seed exercises, events, participants, agents and notifications, with progress in [0,100] and the feed within bound |
| `SimulatedData.SimulatedDataService.UpdateSimulation` | src/services/simulatedDataService.ts:241-263 | agents, participants and exercises each take their step in place; progress stays in [0,100]; events and notifications untouched |
| `SimulatedData.SimulatedDataService.UpdateAgents` | src/services/simulatedDataService.ts:243-248 | every agent is replaced in place by its `AgentTicked` step |
| `SimulatedData.SimulatedDataService.UpdateParticipants` | src/services/simulatedDataService.ts:251-255 | every participant is replaced in place by its `ParticipantTicked` step |
| `SimulatedData.SimulatedDataService.UpdateExercises` | src/services/simulatedDataService.ts:258-262 | every exercise is replaced in place by its `ExerciseTicked` step |
| `SimulatedData.SimulatedDataService.GenerateRandomNotification` | src/services/simulatedDataService.ts:265-301 | an unread notification at index 0, length min(old + 1, 20), older entries in order with the oldest dropped on overflow |
| `SimulatedData.SimulatedDataService.MarkNotificationAsRead` | src/services/simulatedDataService.ts:328-333 | the feed becomes `MarkRead` of the old feed; nothing else changes |
| `SimulatedData.SimulatedDataService.GetExercises` | src/services/simulatedDataService.ts:304-306 | same length and elements as the exercises |
| `SimulatedData.SimulatedDataService.GetEvents` | src/services/simulatedDataService.ts:308-310 | same length and elements as the events |
| `SimulatedData.SimulatedDataService.GetParticipants` | src/services/simulatedDataService.ts:312-314 | same length and elements as the participants |
| `SimulatedData.SimulatedDataService.GetAgents` | src/services/simulatedDataService.ts:316-318 | same length and elements as the agents |
| `SimulatedData.SimulatedDataService.GetNotifications` | src/services/simulatedDataService.ts:320-322 | same length and elements as the feed |
| `SimulatedData.SimulatedDataService.GetUnreadNotifications` | src/services/simulatedDataService.ts:324-326 | the feed filtered by unread, so exactly the unread notifications in feed order (`Common.FilterConcat`); its length is the unread count |
| `SimulatedData.SimulatedDataService.GetStats` | src/services/simulatedDataService.ts:335-347 | each per-status count is the length of the records filtered by that status (active exercises, pending and completed events, active participants, running agents); active <= total exercises, pending + completed <= total events, active <= total participants, running <= agent count, unread count = length of the unread list |
| `SimulatedData.SeedExercises` | src/services/simulatedDataService.ts:68-102 | three seeded exercises with distinct ids and progress in [0,100] |
| `SimulatedData.SeedEvents` | src/services/simulatedDataService.ts:105-136 | three seeded events with distinct ids, the i-th belonging to the i-th seeded exercise |
| `SimulatedData.SeedParticipants` | src/services/simulatedDataService.ts:139-170 | three seeded participants with distinct ids, each last seen before now |
| `SimulatedData.SeedAgents` | src/services/simulatedDataService.ts:173-198 | three seeded agents with distinct ids; exactly the idle one has no current task |
| `SimulatedData.SeedNotifications` | src/services/simulatedDataService.ts:201-226 | three seeded notifications with distinct ids, newest first, within the feed bound, only the newest unread |
| `SimulatedData.PlannedExerciseFrozen` | src/services/simulatedDataService.ts:258-262 | a Planned exercise is unchanged by any number of update ticks |
| `SimulatedData.ProgressMonotone` | src/services/simulatedDataService.ts:258-262 | over any number of ticks progress never decreases, stays at most 100 and status is unchanged |

## Left out

- Timer scheduling (`setInterval` in `startSimulation` of both services). Each callback is a separately invoked method; the callbacks run one at a time, so no interleaving is modelled.
- `updateLocalTimes`: it depends on the platform's time-zone conversion (`toLocaleString`). Locations keep their seeded local time.
- Floating point: numbers are `real` (weather, delay, progress, radius) or `int` (incidents, task counts, times); IEEE rounding is not modelled.
- The random-number stream: each record is given its own draw, and a record the source skips (an idle agent, an inactive participant) simply ignores its draw, so the order in which the source consumes `Math.random()` values is not modelled.
- The clock: one `now` per callback, where the source reads `Date.now()` / `new Date()` again for each record; the `Date` range limit (an invalid date beyond 8.64e15 ms) is not modelled.
- Uniqueness of the time-based ids `event-<now>` and `notif-<now>`: the source does not guarantee it (two calls in the same millisecond collide); `MarkRead` handles duplicates by marking the first match only, as `find` does. Distinct clock values do give distinct id texts (`Common.IntToStringInjective`).
- Object aliasing: records are values, so a sequence a getter returns is a snapshot that never changes afterwards. In the source the getters return shallow copies (`[...list]`) that still share the record objects, and the ticks then change those objects in place: the weather, traffic and employee fields of a twin (src/services/digitalTwinService.ts:358-404), the agents, participants and exercises (src/services/simulatedDataService.ts:243-262), and the `read` flag of a notification (src/services/simulatedDataService.ts:331). So in the source an earlier getter result changes after the fact; the model does not capture this. A caller mutating a returned record would likewise change the store, which is not modelled either. No modelled operation writes through two further sharings: a twin's current location and destination are entries of `locations` (the left-out `updateLocalTimes` does write `localTime` through this sharing, src/services/digitalTwinService.ts:351-353), and nearby events are history entries.
- `src/services/dataverseService.ts` (remote CRUD passthrough over an external library), `src/config/authConfig.ts` and `src/App.tsx` (identity SDK configuration and sign-in), and all React components (presentation, polling and label helpers) are not part of this model.
