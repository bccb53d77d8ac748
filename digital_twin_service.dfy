/** The travel-safety "digital twin" store: one twin per travelling employee,
    joining the employee with travel, weather, traffic and nearby critical
    events, plus the derived risk level. Each timer callback of the service
    is a method that takes its `Math.random()` draws and the clock as
    parameters. */
module DigitalTwins {
  import opened Common

  // ---------------------------------------------------------------------------
  // Records

  /** Event severity; the twin's risk level takes the same four values. */
  datatype Severity = Low | Medium | High | Critical

  datatype EmployeeStatus = Safe | Warning | Danger | Unknown

  datatype TrafficStatus = Clear | Moderate | Heavy | Severe

  datatype Category = NaturalDisaster | Political | Health | Security | Transport

  datatype Employee = Employee(
    id: string, name: string, department: string, role: string, phone: string,
    email: string, emergencyContact: string, lastSeen: int, status: EmployeeStatus)

  datatype Coordinates = Coordinates(lat: real, lng: real)

  datatype Location = Location(
    id: string, name: string, country: string, city: string,
    coordinates: Coordinates, timezone: string, localTime: int)

  datatype FlightInfo = FlightInfo(flightNumber: string, airline: string, departure: int, arrival: int)

  datatype TravelInfo = TravelInfo(
    employeeId: string, currentLocation: Location, destination: Location,
    travelStart: int, travelEnd: int, purpose: string, accommodation: string,
    flightInfo: FlightInfo)

  datatype WeatherData = WeatherData(
    location: string, temperature: real, condition: string, humidity: real,
    windSpeed: real, visibility: real, lastUpdated: int)

  datatype TrafficData = TrafficData(
    location: string, status: TrafficStatus, delay: real, incidents: int, lastUpdated: int)

  datatype CriticalEvent = CriticalEvent(
    id: string, title: string, description: string, severity: Severity,
    location: string, radius: real, startTime: int, endTime: Option<int>,
    category: Category)

  datatype DigitalTwin = DigitalTwin(
    employee: Employee, travelInfo: TravelInfo, weather: WeatherData,
    traffic: TrafficData, nearbyEvents: seq<CriticalEvent>, riskLevel: Severity,
    lastUpdate: int)

  datatype TwinStats = TwinStats(
    totalEmployees: nat, safeEmployees: nat, warningEmployees: nat,
    dangerEmployees: nat, totalEvents: nat, activeEvents: nat)

  /** The critical-event history keeps at most this many entries. */
  const MaxCriticalEvents: nat := 20

  // ---------------------------------------------------------------------------
  // Weather: a clamped random walk

  /** The three draws one twin's weather update takes, in call order. */
  datatype WeatherDraw = WeatherDraw(temperature: real, humidity: real, windSpeed: real) {
    predicate Valid() {
      IsDraw(temperature) && IsDraw(humidity) && IsDraw(windSpeed)
    }
  }

  predicate WeatherInRange(w: WeatherData) {
    && 15.0 <= w.temperature <= 40.0
    && 30.0 <= w.humidity <= 95.0
    && 0.0 <= w.windSpeed <= 50.0
  }

  /** One twin's weather after a weather tick. Whatever the prior values, the
      result is in range; from an in-range start each field moves by at most
      its step size (1, 2.5 and 1.5); nothing but the three readings and the
      time stamp changes. */
  function NextWeather(w: WeatherData, d: WeatherDraw, now: int): (r: WeatherData)
    requires d.Valid()
    ensures WeatherInRange(r)
    ensures r == w.(temperature := r.temperature, humidity := r.humidity,
                    windSpeed := r.windSpeed, lastUpdated := now)
    ensures WeatherInRange(w) ==>
              && w.temperature - 1.0 <= r.temperature <= w.temperature + 1.0
              && w.humidity - 2.5 <= r.humidity <= w.humidity + 2.5
              && w.windSpeed - 1.5 <= r.windSpeed <= w.windSpeed + 1.5
  {
    w.(temperature := Clamp(15.0, 40.0, w.temperature + (d.temperature - 0.5) * 2.0),
       humidity := Clamp(30.0, 95.0, w.humidity + (d.humidity - 0.5) * 5.0),
       windSpeed := Clamp(0.0, 50.0, w.windSpeed + (d.windSpeed - 0.5) * 3.0),
       lastUpdated := now)
  }

  // ---------------------------------------------------------------------------
  // Traffic: a clamped delay, decaying incidents and a status from the delay

  datatype TrafficDraw = TrafficDraw(delay: real, incidents: real) {
    predicate Valid() {
      IsDraw(delay) && IsDraw(incidents)
    }
  }

  /** The status bands of the delay in minutes; every delay has exactly one. */
  function TrafficStatusOf(delay: real): (s: TrafficStatus)
    ensures s == Clear <==> delay < 10.0
    ensures s == Moderate <==> 10.0 <= delay < 30.0
    ensures s == Heavy <==> 30.0 <= delay < 60.0
    ensures s == Severe <==> 60.0 <= delay
  {
    if delay < 10.0 then Clear
    else if delay < 30.0 then Moderate
    else if delay < 60.0 then Heavy
    else Severe
  }

  function TrafficRank(s: TrafficStatus): nat {
    match s
    case Clear => 0
    case Moderate => 1
    case Heavy => 2
    case Severe => 3
  }

  /** A longer delay never gives a milder status. */
  lemma TrafficStatusMonotone(d1: real, d2: real)
    requires d1 <= d2
    ensures TrafficRank(TrafficStatusOf(d1)) <= TrafficRank(TrafficStatusOf(d2))
  {
  }

  /** `Math.floor((r - 0.7) * 2)`: -2 for r < 0.2, -1 for 0.2 <= r < 0.7,
      0 from 0.7 on; never an increase. */
  function IncidentStep(r: real): (k: int)
    requires IsDraw(r)
    ensures -2 <= k <= 0
    ensures k == -2 <==> r < 0.2
    ensures k == 0 <==> 0.7 <= r
  {
    ((r - 0.7) * 2.0).Floor
  }

  /** One twin's traffic after a traffic tick: delay in [0, 120], incidents
      non-negative and never above the old count (nor more than two below it),
      the status is the band of the clamped delay, and only these fields and
      the time stamp change. From an in-range start the delay moves by at
      most 5 minutes. */
  function NextTraffic(t: TrafficData, d: TrafficDraw, now: int): (r: TrafficData)
    requires d.Valid()
    ensures 0.0 <= r.delay <= 120.0
    ensures 0 <= r.incidents <= AtLeastZero(t.incidents)
    ensures t.incidents - 2 <= r.incidents
    ensures r.status == TrafficStatusOf(r.delay)
    ensures 0.0 <= t.delay <= 120.0 ==> t.delay - 5.0 <= r.delay <= t.delay + 5.0
    ensures r == t.(delay := r.delay, incidents := r.incidents, status := r.status,
                    lastUpdated := now)
  {
    var delay := Clamp(0.0, 120.0, t.delay + (d.delay - 0.5) * 10.0);
    t.(delay := delay,
       incidents := AtLeastZero(t.incidents + IncidentStep(d.incidents)),
       lastUpdated := now,
       status := TrafficStatusOf(delay))
  }

  // ---------------------------------------------------------------------------
  // Risk level from the events at the twin's current location

  function SeverityRank(s: Severity): nat {
    match s
    case Low => 0
    case Medium => 1
    case High => 2
    case Critical => 3
  }

  /** The event filter of the risk update: exact string equality of the
      event's location with the location name. */
  function AtLocation(name: string): CriticalEvent -> bool {
    (e: CriticalEvent) => e.location == name
  }

  /** `events.some(e => e.severity === s)`, scanning from the front: true
      exactly when some event has that severity. */
  function AnyOfSeverity(events: seq<CriticalEvent>, s: Severity): (b: bool)
    ensures b <==> exists i :: 0 <= i < |events| && events[i].severity == s
  {
    if events == [] then false
    else
      assert forall i :: 1 <= i < |events| ==> events[i] == events[1..][i - 1];
      events[0].severity == s || AnyOfSeverity(events[1..], s)
  }

  /** The cascade of `some` tests the risk update applies: it picks exactly
      the highest severity present, Low when there is none. */
  function RiskLevelOf(events: seq<CriticalEvent>): (r: Severity)
    ensures r == HighestSeverity(events)
  {
    HighestSeverityIsMax(events);
    if AnyOfSeverity(events, Critical) then Critical
    else if AnyOfSeverity(events, High) then High
    else if AnyOfSeverity(events, Medium) then Medium
    else Low
  }

  function Higher(a: Severity, b: Severity): Severity {
    if SeverityRank(a) >= SeverityRank(b) then a else b
  }

  /** Reference definition: the highest severity in the list, Low for none. */
  function HighestSeverity(events: seq<CriticalEvent>): Severity {
    if events == [] then Low else Higher(events[0].severity, HighestSeverity(events[1..]))
  }

  /** The reference is a maximum: no event is more severe, and it is the
      severity of some event unless it is Low. */
  lemma {:induction false} HighestSeverityIsMax(events: seq<CriticalEvent>)
    ensures forall i :: 0 <= i < |events| ==>
              SeverityRank(events[i].severity) <= SeverityRank(HighestSeverity(events))
    ensures HighestSeverity(events) == Low ||
              exists i :: 0 <= i < |events| && events[i].severity == HighestSeverity(events)
  {
    if events != [] {
      HighestSeverityIsMax(events[1..]);
      assert forall i :: 1 <= i < |events| ==> events[i] == events[1..][i - 1];
    }
  }

  /** A twin after the risk update against `history`: its nearby events are
      exactly the history entries at its current location name, in history
      order; its risk level is the highest of their severities, Low when
      there are none; nothing else changes. */
  function Reassessed(t: DigitalTwin, history: seq<CriticalEvent>): (u: DigitalTwin)
    ensures u.nearbyEvents == Filter(history, AtLocation(t.travelInfo.currentLocation.name))
    ensures u.riskLevel == HighestSeverity(u.nearbyEvents)
    ensures u.nearbyEvents == [] ==> u.riskLevel == Low
    ensures u == t.(nearbyEvents := u.nearbyEvents, riskLevel := u.riskLevel)
  {
    var nearby := Filter(history, AtLocation(t.travelInfo.currentLocation.name));
    t.(nearbyEvents := nearby, riskLevel := RiskLevelOf(nearby))
  }

  // ---------------------------------------------------------------------------
  // Employee status from the risk level

  /** Critical gives Danger, High and Medium give Warning, Low gives Safe;
      Unknown is never produced. */
  function EmployeeStatusFor(risk: Severity): (s: EmployeeStatus)
    ensures s != Unknown
    ensures s == Danger <==> risk == Critical
    ensures s == Warning <==> risk == High || risk == Medium
    ensures s == Safe <==> risk == Low
  {
    match risk
    case Critical => Danger
    case High => Warning
    case Medium => Warning
    case Low => Safe
  }

  function StatusRank(s: EmployeeStatus): nat {
    match s
    case Unknown => 0
    case Safe => 0
    case Warning => 1
    case Danger => 2
  }

  /** A higher risk level never gives a calmer employee status. */
  lemma EmployeeStatusMonotone(a: Severity, b: Severity)
    requires SeverityRank(a) <= SeverityRank(b)
    ensures StatusRank(EmployeeStatusFor(a)) <= StatusRank(EmployeeStatusFor(b))
  {
  }

  /** A twin after an employee-status tick: last seen somewhere in the past
      30 minutes, status derived from the (unchanged) risk level, update time
      stamp set; nothing else changes. */
  function StatusRefreshed(t: DigitalTwin, r: real, now: int): (u: DigitalTwin)
    requires IsDraw(r)
    ensures now - 30 * 60 * 1000 <= u.employee.lastSeen <= now
    ensures u.employee.status == EmployeeStatusFor(t.riskLevel)
    ensures u == t.(employee := t.employee.(lastSeen := u.employee.lastSeen,
                                            status := u.employee.status),
                    lastUpdate := now)
  {
    t.(employee := t.employee.(lastSeen := TimeWithin(now, 30 * 60 * 1000, r),
                               status := EmployeeStatusFor(t.riskLevel)),
       lastUpdate := now)
  }

  // ---------------------------------------------------------------------------
  // Random critical events

  datatype EventTemplate = EventTemplate(title: string, description: string, severity: Severity, category: Category)

  /** The event kinds one generation step picks from: none is Critical. */
  function EventTemplates(): (ts: seq<EventTemplate>)
    ensures |ts| == 3
    ensures forall i :: 0 <= i < |ts| ==> ts[i].severity != Critical
  {
    [
    EventTemplate("Jordskjelv i regionen", "Jordskjelv med styrke 5.2 registrert i nærheten.",
                  High, NaturalDisaster),
    EventTemplate("Lufttrafikk forsinkelser", "Høy aktivitet forårsaker forsinkelser på lufthavnen.",
                  Medium, Transport),
    EventTemplate("Sikkerhetsadvarsel", "Økt sikkerhetsovervåking i området.",
                  Low, Security) ]
  }

  /** The event one generation step creates from its three draws: a template
      severity (never Critical), the name of one of the locations, a radius in
      [10, 110) km, started now and not ended. */
  function NewRandomEvent(locations: seq<Location>, typeDraw: real, locationDraw: real,
                          radiusDraw: real, now: int): (e: CriticalEvent)
    requires 0 < |locations|
    requires IsDraw(typeDraw) && IsDraw(locationDraw) && IsDraw(radiusDraw)
    ensures e.severity != Critical
    ensures exists i :: 0 <= i < |locations| && e.location == locations[i].name
    ensures e.id == "event-" + IntToString(now)
    ensures e.startTime == now && e.endTime == None
    ensures 10.0 <= e.radius < 110.0
  {
    var template := EventTemplates()[PickIndex(typeDraw, |EventTemplates()|)];
    var place := PickIndex(locationDraw, |locations|);
    CriticalEvent("event-" + IntToString(now), template.title, template.description,
                  template.severity, locations[place].name, radiusDraw * 100.0 + 10.0,
                  now, None, template.category)
  }

  // ---------------------------------------------------------------------------
  // Statistics

  function HasStatus(s: EmployeeStatus): DigitalTwin -> bool {
    (t: DigitalTwin) => t.employee.status == s
  }

  /** `!e.endTime`: the event has no end time. */
  function IsOngoing(): CriticalEvent -> bool {
    (e: CriticalEvent) => e.endTime.None?
  }

  // ---------------------------------------------------------------------------
  // The service

  class DigitalTwinService {
    var digitalTwins: array<DigitalTwin>
    var locations: seq<Location>
    var criticalEvents: seq<CriticalEvent>

    /** Locations to draw from, a history within its bound, and no event with an
        end time (no operation sets one). */
    ghost predicate Valid()
      reads this
    {
      && 0 < |locations|
      && |criticalEvents| <= MaxCriticalEvents
      && forall i :: 0 <= i < |criticalEvents| ==> criticalEvents[i].endTime.None?
    }

    constructor (now: int)
      ensures Valid()
      ensures fresh(digitalTwins)
      ensures locations == SeedLocations(now)
      ensures criticalEvents == SeedEvents(now)
      ensures digitalTwins[..] == SeedTwins(now)
    {
      locations := SeedLocations(now);
      criticalEvents := SeedEvents(now);
      var twins := SeedTwins(now);
      digitalTwins := new DigitalTwin[3] [twins[0], twins[1], twins[2]];
    }

    /** The weather tick: every twin's weather takes one clamped random-walk
        step; every reading ends in range; nothing else changes. */
    method UpdateWeatherData(draws: seq<WeatherDraw>, now: int)
      requires |draws| == digitalTwins.Length
      requires forall i :: 0 <= i < |draws| ==> draws[i].Valid()
      modifies digitalTwins
      ensures forall i :: 0 <= i < digitalTwins.Length ==>
                digitalTwins[i] == old(digitalTwins[i]).(weather := NextWeather(old(digitalTwins[i]).weather, draws[i], now))
      ensures forall i :: 0 <= i < digitalTwins.Length ==> WeatherInRange(digitalTwins[i].weather)
    {
      var n := digitalTwins.Length;
      for i := 0 to n
        invariant forall k :: 0 <= k < i ==>
                    digitalTwins[k] == old(digitalTwins[k]).(weather := NextWeather(old(digitalTwins[k]).weather, draws[k], now))
        invariant forall k :: i <= k < n ==> digitalTwins[k] == old(digitalTwins[k])
      {
        var twin := digitalTwins[i];
        digitalTwins[i] := twin.(weather := NextWeather(twin.weather, draws[i], now));
      }
    }

    /** The traffic tick: every twin's traffic takes one step; delay ends in
        [0, 120], incidents non-negative and not increased, the status is the
        band of the new delay; nothing else changes. */
    method UpdateTrafficData(draws: seq<TrafficDraw>, now: int)
      requires |draws| == digitalTwins.Length
      requires forall i :: 0 <= i < |draws| ==> draws[i].Valid()
      modifies digitalTwins
      ensures forall i :: 0 <= i < digitalTwins.Length ==>
                digitalTwins[i] == old(digitalTwins[i]).(traffic := NextTraffic(old(digitalTwins[i]).traffic, draws[i], now))
      ensures forall i :: 0 <= i < digitalTwins.Length ==>
                && 0.0 <= digitalTwins[i].traffic.delay <= 120.0
                && 0 <= digitalTwins[i].traffic.incidents <= AtLeastZero(old(digitalTwins[i]).traffic.incidents)
                && digitalTwins[i].traffic.status == TrafficStatusOf(digitalTwins[i].traffic.delay)
    {
      var n := digitalTwins.Length;
      for i := 0 to n
        invariant forall k :: 0 <= k < i ==>
                    digitalTwins[k] == old(digitalTwins[k]).(traffic := NextTraffic(old(digitalTwins[k]).traffic, draws[k], now))
        invariant forall k :: i <= k < n ==> digitalTwins[k] == old(digitalTwins[k])
      {
        var twin := digitalTwins[i];
        digitalTwins[i] := twin.(traffic := NextTraffic(twin.traffic, draws[i], now));
      }
    }

    /** The employee-status tick: each employee's status follows the twin's
        current risk level, which it does not change. */
    method UpdateEmployeeStatus(draws: seq<real>, now: int)
      requires |draws| == digitalTwins.Length && AllDraws(draws)
      modifies digitalTwins
      ensures forall i :: 0 <= i < digitalTwins.Length ==>
                digitalTwins[i] == StatusRefreshed(old(digitalTwins[i]), draws[i], now)
      ensures forall i :: 0 <= i < digitalTwins.Length ==>
                && digitalTwins[i].employee.status != Unknown
                && digitalTwins[i].riskLevel == old(digitalTwins[i]).riskLevel
    {
      var n := digitalTwins.Length;
      for i := 0 to n
        invariant forall k :: 0 <= k < i ==>
                    digitalTwins[k] == StatusRefreshed(old(digitalTwins[k]), draws[k], now)
        invariant forall k :: i <= k < n ==> digitalTwins[k] == old(digitalTwins[k])
      {
        digitalTwins[i] := StatusRefreshed(digitalTwins[i], draws[i], now);
      }
    }

    /** The risk update: every twin reassessed against the current history. */
    method UpdateRiskLevels()
      modifies digitalTwins
      ensures forall i :: 0 <= i < digitalTwins.Length ==>
                digitalTwins[i] == Reassessed(old(digitalTwins[i]), criticalEvents)
    {
      var n := digitalTwins.Length;
      ghost var before := digitalTwins[..];
      for i := 0 to n
        invariant forall k :: 0 <= k < i ==> digitalTwins[k] == Reassessed(before[k], criticalEvents)
        invariant forall k :: i <= k < n ==> digitalTwins[k] == before[k]
      {
        digitalTwins[i] := Reassessed(digitalTwins[i], criticalEvents);
      }
    }

    /** The event-generation tick: the new event goes to the front, the
        history is cut back to its 20 newest entries, and every twin is
        reassessed against the new history. */
    method GenerateRandomEvent(typeDraw: real, locationDraw: real, radiusDraw: real, now: int)
      requires Valid()
      requires IsDraw(typeDraw) && IsDraw(locationDraw) && IsDraw(radiusDraw)
      modifies this`criticalEvents, digitalTwins
      ensures Valid()
      ensures criticalEvents == BoundedPrepend(NewRandomEvent(locations, typeDraw, locationDraw, radiusDraw, now),
                                               old(criticalEvents), MaxCriticalEvents)
      ensures |criticalEvents| == if |old(criticalEvents)| < MaxCriticalEvents then |old(criticalEvents)| + 1
                                  else MaxCriticalEvents
      ensures criticalEvents[1..] == old(criticalEvents)[..|criticalEvents| - 1]
      ensures criticalEvents[0].severity != Critical
      ensures exists k :: 0 <= k < |locations| && criticalEvents[0].location == locations[k].name
      ensures forall i :: 0 <= i < digitalTwins.Length ==>
                digitalTwins[i] == Reassessed(old(digitalTwins[i]), criticalEvents)
    {
      var event := NewRandomEvent(locations, typeDraw, locationDraw, radiusDraw, now);
      criticalEvents := [event] + criticalEvents;
      if |criticalEvents| > MaxCriticalEvents {
        criticalEvents := criticalEvents[..MaxCriticalEvents];
      }
      assert criticalEvents == BoundedPrepend(event, old(criticalEvents), MaxCriticalEvents);
      UpdateRiskLevels();
    }

    /** `[...this.digitalTwins]`: the twins, same length, same order. */
    function GetDigitalTwins(): (r: seq<DigitalTwin>)
      reads this, digitalTwins
      ensures |r| == digitalTwins.Length
      ensures forall i :: 0 <= i < |r| ==> r[i] == digitalTwins[i]
    {
      digitalTwins[..]
    }

    /** `[...this.criticalEvents]`: the history, newest first. */
    function GetCriticalEvents(): (r: seq<CriticalEvent>)
      reads this
      ensures |r| == |criticalEvents|
      ensures forall i :: 0 <= i < |r| ==> r[i] == criticalEvents[i]
    {
      criticalEvents
    }

    /** `[...this.locations]` */
    function GetLocations(): (r: seq<Location>)
      reads this
      ensures |r| == |locations|
      ensures forall i :: 0 <= i < |r| ==> r[i] == locations[i]
    {
      locations
    }

    /** Each count is `filter(..).length` of the twins with that employee
        status, or of the events without an end time. The status counts cannot
        exceed the number of twins, and reach it once every status has been
        derived; the ongoing events are among all events, and with no end
        times set they are all of them. */
    function GetStats(): (s: TwinStats)
      reads this, digitalTwins
      ensures s.totalEmployees == digitalTwins.Length
      ensures s.totalEvents == |criticalEvents|
      ensures s.safeEmployees == |Filter(digitalTwins[..], HasStatus(Safe))|
      ensures s.warningEmployees == |Filter(digitalTwins[..], HasStatus(Warning))|
      ensures s.dangerEmployees == |Filter(digitalTwins[..], HasStatus(Danger))|
      ensures s.activeEvents == |Filter(criticalEvents, IsOngoing())|
      ensures s.safeEmployees + s.warningEmployees + s.dangerEmployees <= s.totalEmployees
      ensures (forall i :: 0 <= i < digitalTwins.Length ==> digitalTwins[i].employee.status != Unknown) ==>
                s.safeEmployees + s.warningEmployees + s.dangerEmployees == s.totalEmployees
      ensures s.activeEvents <= s.totalEvents
      ensures Valid() ==> s.activeEvents == s.totalEvents
    {
      var twins := digitalTwins[..];
      CountDisjoint3(twins, HasStatus(Safe), HasStatus(Warning), HasStatus(Danger));
      FilterLength(twins, HasStatus(Safe));
      FilterLength(twins, HasStatus(Warning));
      FilterLength(twins, HasStatus(Danger));
      FilterLength(criticalEvents, IsOngoing());
      CountEvery(criticalEvents, IsOngoing());
      TwinStats(
        |twins|,
        Count(twins, HasStatus(Safe)),
        Count(twins, HasStatus(Warning)),
        Count(twins, HasStatus(Danger)),
        |criticalEvents|,
        Count(criticalEvents, IsOngoing()))
    }
  }

  // ---------------------------------------------------------------------------
  // Seed data of the service

  /** Five locations with distinct ids. */
  function SeedLocations(now: int): (r: seq<Location>)
    ensures |r| == 5
    ensures forall i, j :: 0 <= i < j < |r| ==> r[i].id != r[j].id
  {
    [ Location("tokyo", "Tokyo", "Japan", "Tokyo", Coordinates(35.6762, 139.6503), "Asia/Tokyo", now),
      Location("singapore", "Singapore", "Singapore", "Singapore", Coordinates(1.3521, 103.8198), "Asia/Singapore", now),
      Location("bangkok", "Bangkok", "Thailand", "Bangkok", Coordinates(13.7563, 100.5018), "Asia/Bangkok", now),
      Location("hongkong", "Hong Kong", "Hong Kong", "Hong Kong", Coordinates(22.3193, 114.1694), "Asia/Hong_Kong", now),
      Location("seoul", "Seoul", "South Korea", "Seoul", Coordinates(37.5665, 126.9780), "Asia/Seoul", now) ]
  }

  /** Three ongoing events with distinct ids, well within the history bound. */
  function SeedEvents(now: int): (r: seq<CriticalEvent>)
    ensures |r| == 3 <= MaxCriticalEvents
    ensures forall i :: 0 <= i < |r| ==> r[i].endTime.None?
    ensures forall i, j :: 0 <= i < j < |r| ==> r[i].id != r[j].id
  {
    [ CriticalEvent("event-001", "Tyfon nærmer seg Filippinene",
                    "Tyfon med vindstyrke 120 km/h forventes å treffe Manila om 24 timer.",
                    High, "Manila, Philippines", 200.0, now + 24 * 60 * 60 * 1000, None, NaturalDisaster),
      CriticalEvent("event-002", "Demonstrasjoner i Bangkok",
                    "Politisk uro og demonstrasjoner i sentrum av Bangkok.",
                    Medium, "Bangkok, Thailand", 10.0, now - 2 * 60 * 60 * 1000, None, Political),
      CriticalEvent("event-003", "Lufttrafikk forsinkelser",
                    "Høy aktivitet forårsaker forsinkelser på Narita lufthavn.",
                    Low, "Tokyo, Japan", 50.0, now - 1 * 60 * 60 * 1000, None, Transport) ]
  }

  /** Three twins, one per employee (see `SeedTwinsConsistent`). */
  function SeedTwins(now: int): (r: seq<DigitalTwin>)
    ensures |r| == 3
  {
    var loc := SeedLocations(now);
    var ev := SeedEvents(now);
    var day := 24 * 60 * 60 * 1000;
    var hour := 60 * 60 * 1000;
    var anna := DigitalTwin(
        Employee("emp-001", "Anna Larsen", "Sales", "Regional Manager", "+47 123 45 678",
                 "anna.larsen@company.no", "+47 987 65 432", now - 5 * 60 * 1000, Safe),
        TravelInfo("emp-001", loc[0], loc[1], now - 2 * day, now + 3 * day,
                   "Kundemøter og markedsoppfølging", "Marriott Tokyo",
                   FlightInfo("SK123", "SAS", now + 2 * day, now + 2 * day + 6 * hour)),
        WeatherData("Tokyo", 22.0, "Partly Cloudy", 65.0, 12.0, 10.0, now),
        TrafficData("Tokyo", Moderate, 15.0, 2, now),
        [ev[2]], Low, now);
    var erik := DigitalTwin(
        Employee("emp-002", "Erik Johansen", "Engineering", "Senior Developer", "+47 234 56 789",
                 "erik.johansen@company.no", "+47 876 54 321", now - 15 * 60 * 1000, Warning),
        TravelInfo("emp-002", loc[2], loc[3], now - 1 * day, now + 2 * day,
                   "Teknisk samarbeid og workshops", "Grand Hyatt Bangkok",
                   FlightInfo("TG456", "Thai Airways", now + 1 * day, now + 1 * day + 2 * hour)),
        WeatherData("Bangkok", 32.0, "Thunderstorm", 85.0, 25.0, 5.0, now),
        TrafficData("Bangkok", Heavy, 45.0, 5, now),
        [ev[1]], Medium, now);
    var maria := DigitalTwin(
        Employee("emp-003", "Maria Chen", "Marketing", "Marketing Director", "+47 345 67 890",
                 "maria.chen@company.no", "+47 765 43 210", now - 2 * 60 * 1000, Safe),
        TravelInfo("emp-003", loc[1], loc[4], now - 3 * day, now + 1 * day,
                   "Markedsanalyse og partner-møter", "Marina Bay Sands",
                   FlightInfo("SQ789", "Singapore Airlines", now + 1 * day, now + 1 * day + 6 * hour)),
        WeatherData("Singapore", 28.0, "Sunny", 70.0, 8.0, 15.0, now),
        TrafficData("Singapore", Clear, 5.0, 0, now),
        [], Low, now);
    [anna, erik, maria]
  }

  // ---------------------------------------------------------------------------
  // Properties of the seed state

  /** Each seeded twin travels between two of the seeded locations for its
      own employee, and its nearby events are taken from the seeded history. */
  lemma SeedTwinsConsistent(now: int, i: nat)
    requires i < 3
    ensures SeedTwins(now)[i].employee.id == SeedTwins(now)[i].travelInfo.employeeId
    ensures SeedTwins(now)[i].travelInfo.currentLocation in SeedLocations(now)
    ensures SeedTwins(now)[i].travelInfo.destination in SeedLocations(now)
    ensures forall k :: 0 <= k < |SeedTwins(now)[i].nearbyEvents| ==>
              SeedTwins(now)[i].nearbyEvents[k] in SeedEvents(now)
  {
  }

  /** The seeded weather is in range, so every twin's weather is in range
      before the first weather tick as well as after each one. */
  lemma SeedWeatherInRange(now: int)
    ensures forall i :: 0 <= i < |SeedTwins(now)| ==> WeatherInRange(SeedTwins(now)[i].weather)
  {
  }

  /** Erik Johansen starts in Bangkok with one Medium event nearby and risk
      level Medium, so the next employee-status tick marks him Warning. */
  lemma SeedBangkokScenario(now: int, r: real)
    requires IsDraw(r)
    ensures SeedTwins(now)[1].employee.name == "Erik Johansen"
    ensures SeedTwins(now)[1].travelInfo.currentLocation.name == "Bangkok"
    ensures |SeedTwins(now)[1].nearbyEvents| == 1
    ensures SeedTwins(now)[1].nearbyEvents[0].severity == Medium
    ensures SeedTwins(now)[1].riskLevel == Medium
    ensures StatusRefreshed(SeedTwins(now)[1], r, now).employee.status == Warning
  {
  }

  /** The seed events are placed at "City, Country" while the locations are
      named by city alone, so exact matching finds none of them near any seed
      twin: the first risk update clears the seeded nearby events. */
  lemma {:induction false} SeedEventsMatchNoTwin(now: int, i: nat)
    requires i < 3
    ensures Filter(SeedEvents(now), AtLocation(SeedTwins(now)[i].travelInfo.currentLocation.name)) == []
    ensures Reassessed(SeedTwins(now)[i], SeedEvents(now)).riskLevel == Low
  {
    var name := SeedTwins(now)[i].travelInfo.currentLocation.name;
    var ev := SeedEvents(now);
    assert ev[2..][1..] == [];
    assert Filter(ev[2..][1..], AtLocation(name)) == [];
    assert Filter(ev[1..][1..], AtLocation(name)) == [];
    assert Filter(ev[1..], AtLocation(name)) == [];
  }

  /** So after the first generated event, a seed twin's nearby events are the
      new event if it is at the twin's location name, and nothing otherwise. */
  lemma FirstEventAfterSeed(now: int, i: nat, e: CriticalEvent)
    requires i < 3
    ensures var name := SeedTwins(now)[i].travelInfo.currentLocation.name;
            Reassessed(SeedTwins(now)[i], BoundedPrepend(e, SeedEvents(now), MaxCriticalEvents)).nearbyEvents
              == if e.location == name then [e] else []
  {
    var name := SeedTwins(now)[i].travelInfo.currentLocation.name;
    var history := BoundedPrepend(e, SeedEvents(now), MaxCriticalEvents);
    assert history == [e] + SeedEvents(now);
    FilterConcat([e], SeedEvents(now), AtLocation(name));
    SeedEventsMatchNoTwin(now, i);
  }

  /** Twenty-five generated events after the seed leave exactly twenty in the
      history, newest first, and every seed event has fallen off. */
  lemma TwentyFiveEventsAfterSeed(now: int, xs: seq<CriticalEvent>)
    requires |xs| == 25
    ensures |PrependEach(xs, SeedEvents(now), MaxCriticalEvents)| == MaxCriticalEvents
    ensures PrependEach(xs, SeedEvents(now), MaxCriticalEvents)[0] == xs[24]
    ensures forall k :: 0 <= k < MaxCriticalEvents ==>
              PrependEach(xs, SeedEvents(now), MaxCriticalEvents)[k] == xs[24 - k]
  {
    PrependEachNewest(xs, SeedEvents(now), MaxCriticalEvents);
    ReverseIndex(xs);
  }
}
