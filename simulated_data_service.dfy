/** The exercise-dashboard simulator: exercises, events, participants, agents
    and a notification feed held in memory, perturbed by two timer
    callbacks and queried by the dashboard. The callbacks are methods that
    take their `Math.random()` draws and the clock as parameters. */
module SimulatedData {
  import opened Common

  // ---------------------------------------------------------------------------
  // Records

  datatype ExerciseStatus = Active | Completed | Planned

  datatype ExerciseType = Fire | Evacuation | Security | Medical

  datatype SimulatedExercise = SimulatedExercise(
    id: string, name: string, status: ExerciseStatus, startDate: int, endDate: int,
    participants: int, location: string, kind: ExerciseType, progress: real)

  datatype EventStatus = Active | Completed | Pending

  datatype Severity = Low | Medium | High | Critical

  datatype SimulatedEvent = SimulatedEvent(
    id: string, name: string, status: EventStatus, eventDate: int, description: string,
    exerciseId: string, severity: Severity, location: string)

  datatype ParticipantStatus = Active | Inactive | Emergency

  datatype SimulatedParticipant = SimulatedParticipant(
    id: string, name: string, email: string, phone: string, department: string,
    role: string, status: ParticipantStatus, lastSeen: int)

  datatype AgentStatus = Running | Idle | Error

  datatype SimulatedAgent = SimulatedAgent(
    id: string, name: string, status: AgentStatus, lastActivity: int,
    tasksCompleted: int, currentTask: Option<string>)

  datatype NotificationType = Info | Warning | Error | Success

  datatype SimulatedNotification = SimulatedNotification(
    id: string, kind: NotificationType, title: string, message: string,
    timestamp: int, read: bool)

  datatype SimulationStats = SimulationStats(
    totalExercises: nat, activeExercises: nat, totalEvents: nat, pendingEvents: nat,
    completedEvents: nat, totalParticipants: nat, activeParticipants: nat,
    runningAgents: nat, unreadNotifications: nat)

  /** The notification feed keeps at most this many entries. */
  const MaxNotifications: nat := 20

  // ---------------------------------------------------------------------------
  // The per-record steps of the update tick

  /** `Math.floor(r * 2)`: a running agent finishes one more task half the time. */
  function TaskStep(r: real): (k: int)
    requires IsDraw(r)
    ensures k == 0 || k == 1
    ensures k == 1 <==> 0.5 <= r
  {
    (r * 2.0).Floor
  }

  /** A running agent is active now and has finished zero or one more task;
      any other agent is untouched. */
  function AgentTicked(a: SimulatedAgent, r: real, now: int): (b: SimulatedAgent)
    requires IsDraw(r)
    ensures a.status.Running? ==>
              && b == a.(lastActivity := now, tasksCompleted := b.tasksCompleted)
              && a.tasksCompleted <= b.tasksCompleted <= a.tasksCompleted + 1
    ensures !a.status.Running? ==> b == a
  {
    if a.status.Running? then
      a.(lastActivity := now, tasksCompleted := a.tasksCompleted + TaskStep(r))
    else a
  }

  /** An active participant was last seen at some moment of the last ten
      minutes; any other participant is untouched. */
  function ParticipantTicked(p: SimulatedParticipant, r: real, now: int): (q: SimulatedParticipant)
    requires IsDraw(r)
    ensures p.status.Active? ==>
              && q == p.(lastSeen := q.lastSeen)
              && now - 10 * 60 * 1000 <= q.lastSeen <= now
    ensures !p.status.Active? ==> q == p
  {
    if p.status.Active? then p.(lastSeen := TimeWithin(now, 10 * 60 * 1000, r)) else p
  }

  /** An active exercise below 100 advances by less than 5 points and not past
      100; it never goes back. Any other exercise, and one at 100, is
      untouched; the status never changes. */
  function ExerciseTicked(e: SimulatedExercise, r: real): (f: SimulatedExercise)
    requires IsDraw(r)
    ensures e.status.Active? && e.progress < 100.0 ==>
              && f == e.(progress := f.progress)
              && e.progress <= f.progress <= 100.0
              && f.progress - e.progress < 5.0
    ensures !(e.status.Active? && e.progress < 100.0) ==> f == e
  {
    if e.status.Active? && e.progress < 100.0 then
      e.(progress := Min(100.0, e.progress + r * 5.0))
    else e
  }

  // ---------------------------------------------------------------------------
  // The notification feed

  datatype NotificationTemplate = NotificationTemplate(kind: NotificationType, title: string, message: string)

  /** The notification kinds one generation step picks from: none is an error. */
  function NotificationTemplates(): (ts: seq<NotificationTemplate>)
    ensures |ts| == 3
    ensures forall i :: 0 <= i < |ts| ==> !ts[i].kind.Error?
  {
    [
    NotificationTemplate(Info, "Systemoppdatering", "Sikkerhetssystemet er oppdatert med nye funksjoner."),
    NotificationTemplate(Warning, "Høy aktivitet", "Uvanlig høy aktivitet detektert i område A."),
    NotificationTemplate(Success, "Oppgave fullført", "Sikkerhetssjekk fullført for alle innganger.") ]
  }

  /** The notification one generation step creates: unread, stamped now, of
      one of the template kinds (never an error). */
  function NewRandomNotification(typeDraw: real, now: int): (n: SimulatedNotification)
    requires IsDraw(typeDraw)
    ensures !n.read
    ensures n.timestamp == now
    ensures n.id == "notif-" + IntToString(now)
    ensures !n.kind.Error?
  {
    var template := NotificationTemplates()[PickIndex(typeDraw, |NotificationTemplates()|)];
    SimulatedNotification("notif-" + IntToString(now), template.kind, template.title,
                          template.message, now, false)
  }

  /** Position j holds the first notification with this id, the one `find` returns. */
  predicate IsFirstWithId(feed: seq<SimulatedNotification>, j: nat, id: string) {
    j < |feed| && feed[j].id == id && forall k :: 0 <= k < j ==> feed[k].id != id
  }

  /** `feed.find(n => n.id === id)`, as a position. */
  function FirstWithId(feed: seq<SimulatedNotification>, id: string): (r: Option<nat>)
    ensures r.Some? ==> IsFirstWithId(feed, r.value, id)
    ensures r.None? ==> forall k :: 0 <= k < |feed| ==> feed[k].id != id
  {
    if feed == [] then None
    else if feed[0].id == id then Some(0)
    else
      match FirstWithId(feed[1..], id)
      case None => None
      case Some(k) =>
        assert forall m :: 1 <= m < |feed| ==> feed[m] == feed[1..][m - 1];
        Some(k + 1)
  }

  /** The feed after marking `id` read: the first notification with that id
      is read afterwards and otherwise unchanged; every other notification,
      and the order, stay as they were; an unknown id changes nothing; no read
      flag goes back to unread. */
  function MarkRead(feed: seq<SimulatedNotification>, id: string): (r: seq<SimulatedNotification>)
    ensures |r| == |feed|
    ensures forall j :: 0 <= j < |feed| && IsFirstWithId(feed, j, id) ==> r[j] == feed[j].(read := true)
    ensures forall j :: 0 <= j < |feed| && !IsFirstWithId(feed, j, id) ==> r[j] == feed[j]
    ensures (forall j :: 0 <= j < |feed| ==> feed[j].id != id) ==> r == feed
    ensures forall j :: 0 <= j < |feed| && feed[j].read ==> r[j].read
  {
    match FirstWithId(feed, id)
    case None => feed
    case Some(j) => feed[j := feed[j].(read := true)]
  }

  /** Marking the same id read twice has the effect of marking it once. */
  lemma MarkReadIdempotent(feed: seq<SimulatedNotification>, id: string)
    ensures MarkRead(MarkRead(feed, id), id) == MarkRead(feed, id)
  {
  }

  function IsUnread(): SimulatedNotification -> bool {
    (n: SimulatedNotification) => !n.read
  }

  /** Marking read lowers the unread count by one exactly when it finds an
      unread notification with that id, and leaves it otherwise. */
  lemma {:induction false} MarkReadUnreadCount(feed: seq<SimulatedNotification>, id: string)
    ensures Count(MarkRead(feed, id), IsUnread()) ==
              Count(feed, IsUnread()) - (if FirstWithId(feed, id).Some? && !feed[FirstWithId(feed, id).value].read then 1 else 0)
  {
    if feed != [] {
      var r := MarkRead(feed, id);
      if feed[0].id == id {
        assert r[1..] == feed[1..];
      } else {
        MarkReadUnreadCount(feed[1..], id);
        assert r[0] == feed[0];
        assert r[1..] == MarkRead(feed[1..], id);
      }
    }
  }

  // ---------------------------------------------------------------------------
  // Predicates the statistics count

  function ExerciseIs(s: ExerciseStatus): SimulatedExercise -> bool {
    (e: SimulatedExercise) => e.status == s
  }

  function EventIs(s: EventStatus): SimulatedEvent -> bool {
    (e: SimulatedEvent) => e.status == s
  }

  function ParticipantIs(s: ParticipantStatus): SimulatedParticipant -> bool {
    (p: SimulatedParticipant) => p.status == s
  }

  function AgentIs(s: AgentStatus): SimulatedAgent -> bool {
    (a: SimulatedAgent) => a.status == s
  }

  // ---------------------------------------------------------------------------
  // The service

  class SimulatedDataService {
    var exercises: array<SimulatedExercise>
    var events: array<SimulatedEvent>
    var participants: array<SimulatedParticipant>
    var agents: array<SimulatedAgent>
    var notifications: seq<SimulatedNotification>

    /** The feed within its bound and every exercise's progress in [0, 100]. */
    ghost predicate Valid()
      reads this, exercises
    {
      && |notifications| <= MaxNotifications
      && forall i :: 0 <= i < exercises.Length ==> 0.0 <= exercises[i].progress <= 100.0
    }

    constructor (now: int)
      ensures Valid()
      ensures fresh(exercises) && fresh(events) && fresh(participants) && fresh(agents)
      ensures exercises[..] == SeedExercises(now)
      ensures events[..] == SeedEvents(now)
      ensures participants[..] == SeedParticipants(now)
      ensures agents[..] == SeedAgents(now)
      ensures notifications == SeedNotifications(now)
    {
      var ex := SeedExercises(now);
      var ev := SeedEvents(now);
      var ps := SeedParticipants(now);
      var ag := SeedAgents(now);
      exercises := new SimulatedExercise[3] [ex[0], ex[1], ex[2]];
      events := new SimulatedEvent[3] [ev[0], ev[1], ev[2]];
      participants := new SimulatedParticipant[3] [ps[0], ps[1], ps[2]];
      agents := new SimulatedAgent[3] [ag[0], ag[1], ag[2]];
      notifications := SeedNotifications(now);
    }

    /** The update tick: agents, then participants, then exercises, each
        record by its own step; events and notifications are untouched. */
    method UpdateSimulation(agentDraws: seq<real>, participantDraws: seq<real>,
                            progressDraws: seq<real>, now: int)
      requires Valid()
      requires |agentDraws| == agents.Length && AllDraws(agentDraws)
      requires |participantDraws| == participants.Length && AllDraws(participantDraws)
      requires |progressDraws| == exercises.Length && AllDraws(progressDraws)
      modifies agents, participants, exercises
      ensures Valid()
      ensures forall i :: 0 <= i < agents.Length ==>
                agents[i] == AgentTicked(old(agents[i]), agentDraws[i], now)
      ensures forall i :: 0 <= i < participants.Length ==>
                participants[i] == ParticipantTicked(old(participants[i]), participantDraws[i], now)
      ensures forall i :: 0 <= i < exercises.Length ==>
                exercises[i] == ExerciseTicked(old(exercises[i]), progressDraws[i])
    {
      UpdateAgents(agentDraws, now);
      UpdateParticipants(participantDraws, now);
      UpdateExercises(progressDraws);
    }

    method UpdateAgents(draws: seq<real>, now: int)
      requires |draws| == agents.Length && AllDraws(draws)
      modifies agents
      ensures forall i :: 0 <= i < agents.Length ==> agents[i] == AgentTicked(old(agents[i]), draws[i], now)
    {
      var n := agents.Length;
      for i := 0 to n
        invariant forall k :: 0 <= k < i ==> agents[k] == AgentTicked(old(agents[k]), draws[k], now)
        invariant forall k :: i <= k < n ==> agents[k] == old(agents[k])
      {
        var agent := agents[i];
        if agent.status.Running? {
          agents[i] := agent.(lastActivity := now, tasksCompleted := agent.tasksCompleted + TaskStep(draws[i]));
        }
      }
    }

    method UpdateParticipants(draws: seq<real>, now: int)
      requires |draws| == participants.Length && AllDraws(draws)
      modifies participants
      ensures forall i :: 0 <= i < participants.Length ==>
                participants[i] == ParticipantTicked(old(participants[i]), draws[i], now)
    {
      var n := participants.Length;
      for i := 0 to n
        invariant forall k :: 0 <= k < i ==> participants[k] == ParticipantTicked(old(participants[k]), draws[k], now)
        invariant forall k :: i <= k < n ==> participants[k] == old(participants[k])
      {
        var participant := participants[i];
        if participant.status.Active? {
          participants[i] := participant.(lastSeen := TimeWithin(now, 10 * 60 * 1000, draws[i]));
        }
      }
    }

    method UpdateExercises(draws: seq<real>)
      requires |draws| == exercises.Length && AllDraws(draws)
      modifies exercises
      ensures forall i :: 0 <= i < exercises.Length ==> exercises[i] == ExerciseTicked(old(exercises[i]), draws[i])
    {
      var n := exercises.Length;
      for i := 0 to n
        invariant forall k :: 0 <= k < i ==> exercises[k] == ExerciseTicked(old(exercises[k]), draws[k])
        invariant forall k :: i <= k < n ==> exercises[k] == old(exercises[k])
      {
        var exercise := exercises[i];
        if exercise.status.Active? && exercise.progress < 100.0 {
          exercises[i] := exercise.(progress := Min(100.0, exercise.progress + draws[i] * 5.0));
        }
      }
    }

    /** The notification tick: a new unread notification goes to the front;
        the feed is cut back to its 20 newest entries; the older entries keep
        their order and their read flags. */
    method GenerateRandomNotification(typeDraw: real, now: int)
      requires Valid() && IsDraw(typeDraw)
      modifies this`notifications
      ensures Valid()
      ensures notifications == BoundedPrepend(NewRandomNotification(typeDraw, now), old(notifications), MaxNotifications)
      ensures !notifications[0].read
      ensures |notifications| == if |old(notifications)| < MaxNotifications then |old(notifications)| + 1
                                 else MaxNotifications
      ensures notifications[1..] == old(notifications)[..|notifications| - 1]
    {
      var notification := NewRandomNotification(typeDraw, now);
      notifications := [notification] + notifications;
      if |notifications| > MaxNotifications {
        notifications := notifications[..MaxNotifications];
      }
      assert notifications == BoundedPrepend(notification, old(notifications), MaxNotifications);
    }

    /** `markNotificationAsRead(id)`: finds the first notification with this
        id and marks it read. */
    method MarkNotificationAsRead(id: string)
      requires Valid()
      modifies this`notifications
      ensures Valid()
      ensures notifications == MarkRead(old(notifications), id)
    {
      var i := 0;
      while i < |notifications| && notifications[i].id != id
        invariant 0 <= i <= |notifications|
        invariant forall k :: 0 <= k < i ==> notifications[k].id != id
      {
        i := i + 1;
      }
      if i < |notifications| {
        notifications := notifications[i := notifications[i].(read := true)];
      }
    }

    function GetExercises(): (r: seq<SimulatedExercise>)
      reads this, exercises
      ensures |r| == exercises.Length && forall i :: 0 <= i < |r| ==> r[i] == exercises[i]
    {
      exercises[..]
    }

    function GetEvents(): (r: seq<SimulatedEvent>)
      reads this, events
      ensures |r| == events.Length && forall i :: 0 <= i < |r| ==> r[i] == events[i]
    {
      events[..]
    }

    function GetParticipants(): (r: seq<SimulatedParticipant>)
      reads this, participants
      ensures |r| == participants.Length && forall i :: 0 <= i < |r| ==> r[i] == participants[i]
    {
      participants[..]
    }

    function GetAgents(): (r: seq<SimulatedAgent>)
      reads this, agents
      ensures |r| == agents.Length && forall i :: 0 <= i < |r| ==> r[i] == agents[i]
    {
      agents[..]
    }

    function GetNotifications(): (r: seq<SimulatedNotification>)
      reads this
      ensures |r| == |notifications| && forall i :: 0 <= i < |r| ==> r[i] == notifications[i]
    {
      notifications
    }

    /** The unread notifications, in feed order: every entry is unread and
        every unread notification of the feed is there. */
    function GetUnreadNotifications(): (r: seq<SimulatedNotification>)
      reads this
      ensures |r| <= |notifications|
      ensures forall i :: 0 <= i < |r| ==> !r[i].read && r[i] in notifications
      ensures forall i :: 0 <= i < |notifications| && !notifications[i].read ==> notifications[i] in r
      ensures |r| == Count(notifications, IsUnread())
      ensures r == Filter(notifications, IsUnread())
    {
      FilterLength(notifications, IsUnread());
      Filter(notifications, IsUnread())
    }

    /** Each count is `filter(..).length` of the records with that status;
        each is bounded by its total; pending and completed events are
        disjoint; the unread count is the length of the unread list. */
    function GetStats(): (s: SimulationStats)
      reads this, exercises, events, participants, agents
      ensures s.totalExercises == exercises.Length && s.activeExercises <= s.totalExercises
      ensures s.totalEvents == events.Length && s.pendingEvents + s.completedEvents <= s.totalEvents
      ensures s.totalParticipants == participants.Length && s.activeParticipants <= s.totalParticipants
      ensures s.runningAgents <= agents.Length
      ensures s.activeExercises == |Filter(exercises[..], ExerciseIs(ExerciseStatus.Active))|
      ensures s.pendingEvents == |Filter(events[..], EventIs(Pending))|
      ensures s.completedEvents == |Filter(events[..], EventIs(EventStatus.Completed))|
      ensures s.activeParticipants == |Filter(participants[..], ParticipantIs(ParticipantStatus.Active))|
      ensures s.runningAgents == |Filter(agents[..], AgentIs(Running))|
      ensures s.unreadNotifications == |GetUnreadNotifications()| <= |notifications|
    {
      var evs := events[..];
      CountDisjoint(evs, EventIs(Pending), EventIs(EventStatus.Completed));
      FilterLength(exercises[..], ExerciseIs(ExerciseStatus.Active));
      FilterLength(evs, EventIs(Pending));
      FilterLength(evs, EventIs(EventStatus.Completed));
      FilterLength(participants[..], ParticipantIs(ParticipantStatus.Active));
      FilterLength(agents[..], AgentIs(Running));
      SimulationStats(
        exercises.Length,
        Count(exercises[..], ExerciseIs(ExerciseStatus.Active)),
        events.Length,
        Count(evs, EventIs(Pending)),
        Count(evs, EventIs(EventStatus.Completed)),
        participants.Length,
        Count(participants[..], ParticipantIs(ParticipantStatus.Active)),
        Count(agents[..], AgentIs(Running)),
        |GetUnreadNotifications()|)
    }
  }

  // ---------------------------------------------------------------------------
  // Seed data of the service

  /** Three exercises with distinct ids, each with its progress in [0, 100]. */
  function SeedExercises(now: int): (r: seq<SimulatedExercise>)
    ensures |r| == 3
    ensures forall i, j :: 0 <= i < j < |r| ==> r[i].id != r[j].id
    ensures forall i :: 0 <= i < |r| ==> 0.0 <= r[i].progress <= 100.0
  {
    var hour := 60 * 60 * 1000;
    [ SimulatedExercise("ex-001", "Brannøvelse - Hovedkontor", ExerciseStatus.Active,
                        now - 2 * hour, now + 2 * hour, 45, "Hovedkontor, 3. etasje", Fire, 65.0),
      SimulatedExercise("ex-002", "Evakuering - Avdeling B", ExerciseStatus.Completed,
                        now - 4 * hour, now - 2 * hour, 32, "Avdeling B, 1. etasje", Evacuation, 100.0),
      SimulatedExercise("ex-003", "Sikkerhetstrening - Team 1", Planned,
                        now + 1 * hour, now + 3 * hour, 28, "Konferansesenter", ExerciseType.Security, 0.0) ]
  }

  /** Three events with distinct ids; the i-th belongs to the i-th seeded exercise. */
  function SeedEvents(now: int): (r: seq<SimulatedEvent>)
    ensures |r| == 3
    ensures forall i, j :: 0 <= i < j < |r| ==> r[i].id != r[j].id
    ensures forall i :: 0 <= i < |r| ==> r[i].exerciseId == SeedExercises(now)[i].id
  {
    [ SimulatedEvent("ev-001", "Brannalarm utløst", EventStatus.Active, now - 30 * 60 * 1000,
                     "Brannalarm utløst i serverrom. Evakuering pågår.", "ex-001", High,
                     "Serverrom, 2. etasje"),
      SimulatedEvent("ev-002", "Evakuering fullført", EventStatus.Completed, now - 2 * 60 * 60 * 1000,
                     "Alle personell evakuert fra Avdeling B.", "ex-002", Medium, "Avdeling B"),
      SimulatedEvent("ev-003", "Sikkerhetssjekk påkrevd", Pending, now + 30 * 60 * 1000,
                     "Rutinemessig sikkerhetssjekk av alle innganger.", "ex-003", Low, "Alle innganger") ]
  }

  /** Three participants with distinct ids, each seen in the past. */
  function SeedParticipants(now: int): (r: seq<SimulatedParticipant>)
    ensures |r| == 3
    ensures forall i, j :: 0 <= i < j < |r| ==> r[i].id != r[j].id
    ensures forall i :: 0 <= i < |r| ==> r[i].lastSeen < now
  {
    [ SimulatedParticipant("p-001", "Lars Andersen", "lars.andersen@company.no", "+47 123 45 678",
                           "IT", "Systemadministrator", ParticipantStatus.Active, now - 5 * 60 * 1000),
      SimulatedParticipant("p-002", "Maria Hansen", "maria.hansen@company.no", "+47 234 56 789",
                           "HR", "HR Manager", ParticipantStatus.Active, now - 2 * 60 * 1000),
      SimulatedParticipant("p-003", "Erik Johansen", "erik.johansen@company.no", "+47 345 67 890",
                           "Finance", "Financial Controller", Emergency, now - 1 * 60 * 1000) ]
  }

  /** Three agents with distinct ids; exactly the idle one has no current task. */
  function SeedAgents(now: int): (r: seq<SimulatedAgent>)
    ensures |r| == 3
    ensures forall i, j :: 0 <= i < j < |r| ==> r[i].id != r[j].id
    ensures forall i :: 0 <= i < |r| ==> (r[i].currentTask.None? <==> r[i].status.Idle?)
  {
    [ SimulatedAgent("agent-001", "Sikkerhetsagent Alpha", Running, now - 30 * 1000, 15,
                     Some("Overvåker evakuering")),
      SimulatedAgent("agent-002", "Kommunikasjonsagent Beta", Running, now - 45 * 1000, 8,
                     Some("Sender varsler til deltakere")),
      SimulatedAgent("agent-003", "Rapporteringsagent Gamma", Idle, now - 5 * 60 * 1000, 3, None) ]
  }

  /** Three notifications with distinct ids, within the feed bound, newest
      first, of which only the newest is unread. */
  function SeedNotifications(now: int): (r: seq<SimulatedNotification>)
    ensures |r| == 3 <= MaxNotifications
    ensures forall i, j :: 0 <= i < j < |r| ==> r[i].id != r[j].id && r[j].timestamp < r[i].timestamp
    ensures forall i :: 0 <= i < |r| ==> (!r[i].read <==> i == 0)
  {
    [ SimulatedNotification("notif-001", Warning, "Brannalarm aktivert",
                            "Brannalarm er utløst i serverrom. Evakuering pågår.", now - 30 * 60 * 1000, false),
      SimulatedNotification("notif-002", Success, "Evakuering fullført",
                            "Alle personell er evakuert fra Avdeling B.", now - 2 * 60 * 60 * 1000, true),
      SimulatedNotification("notif-003", Info, "Ny øvelse planlagt",
                            "Sikkerhetstrening for Team 1 er planlagt til i morgen.", now - 4 * 60 * 60 * 1000, true) ]
  }

  /** A planned exercise keeps its progress through any number of update ticks. */
  lemma {:induction false} PlannedExerciseFrozen(e: SimulatedExercise, draws: seq<real>)
    requires e.status.Planned? && AllDraws(draws)
    ensures TickedRepeatedly(e, draws) == e
    decreases |draws|
  {
    if draws != [] {
      PlannedExerciseFrozen(e, draws[1..]);
    }
  }

  /** An active exercise's progress after one update tick per draw: never
      lower than where it started, never above 100 once it starts within
      [0, 100]. */
  lemma {:induction false} ProgressMonotone(e: SimulatedExercise, draws: seq<real>)
    requires AllDraws(draws) && 0.0 <= e.progress <= 100.0
    ensures e.progress <= TickedRepeatedly(e, draws).progress <= 100.0
    ensures TickedRepeatedly(e, draws).status == e.status
    decreases |draws|
  {
    if draws != [] {
      ProgressMonotone(ExerciseTicked(e, draws[0]), draws[1..]);
    }
  }

  /** The exercise after one update tick for each draw, in order. */
  function TickedRepeatedly(e: SimulatedExercise, draws: seq<real>): SimulatedExercise
    requires AllDraws(draws)
    decreases |draws|
  {
    if draws == [] then e else TickedRepeatedly(ExerciseTicked(e, draws[0]), draws[1..])
  }
}
