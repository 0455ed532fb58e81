/**
 * `MemStorage` (server/storage.ts): five maps and five id counters that the
 * create and update methods change in place. Each method is proved to leave
 * the store in exactly the state the corresponding function of module Store
 * describes; the read-only queries are those functions applied to `State()`.
 * The clock is the `now` parameter.
 */
module Storage {
  import opened Wrappers
  import opened Schema
  import Store
  import Seqs

  // ----- seed data (`initializeMockData`) ------------------------------------

  const Hour := 60 * 60 * 1000
  const Day := 24 * Hour

  const SeedUsers: seq<InsertUser> := [
    InsertUser("joao@industriaabc.com", "123456", "João Silva", Some("Indústria ABC"),
               Some("(11) 9999-9999"), "fabricante", None,
               Some("Fabricação de componentes eletrônicos para indústria automotiva"), Some(true)),
    InsertUser("ana@distribuidoranorte.com", "123456", "Ana Beatriz Santos", Some("Distribuidora Norte Ltda."),
               Some("(11) 8888-8888"), "revendedor", None,
               Some("Distribuição de produtos eletrônicos para o nordeste"), Some(true)),
    InsertUser("carlos@varejoSul.com", "123456", "Carlos Santos", Some("Rede Varejo Sul"),
               Some("(11) 7777-7777"), "revendedor", None,
               Some("Rede de lojas de varejo no sul do país"), Some(true)),
    InsertUser("marina@atacadocentro.com", "123456", "Marina Rodrigues", Some("Atacado Centro"),
               Some("(11) 6666-6666"), "revendedor", None,
               Some("Atacado de produtos diversos para o centro-oeste"), Some(true)),
    InsertUser("admin@agis.com", "123456", "Administrador", Some("Agis Eventos"),
               Some("(11) 5555-5555"), "admin", None,
               Some("Administração da plataforma"), Some(true))
  ]

  function SeedEvent(now: Instant): InsertEvent {
    InsertEvent("Feira de Negócios 2024", Some("Evento de networking B2B para fabricantes e revendedores"),
                now, now + 7 * Day, Some("Centro de Convenções São Paulo"), Some(30), Some(true))
  }

  function SeedMeetings(now: Instant): seq<InsertMeeting> {
    [ InsertMeeting(Some(1), Some(1), Some(2), now + 2 * Hour, Some(30), Some("Mesa 15"),
                    Some("confirmed"), Some("Discussão sobre novos produtos"), None),
      InsertMeeting(Some(1), Some(1), Some(3), now + 3 * Hour, Some(30), Some("Mesa 12"),
                    Some("pending"), Some("Negociação de preços"), None),
      InsertMeeting(Some(1), Some(1), Some(4), now + Day, Some(30), Some("Mesa 8"),
                    Some("confirmed"), Some("Apresentação de linha de produtos"), None) ]
  }

  function SeedRequests(now: Instant): seq<InsertMeetingRequest> {
    [ InsertMeetingRequest(Some(1), Some(4), Some(1), now + Day,
                           Some("Gostaria de agendar uma reunião para discutir oportunidades de parceria"),
                           Some("pending"), None) ]
  }

  const SeedNotifications: seq<InsertNotification> := [
    InsertNotification(Some(1), "Conflito de horário detectado",
                       "Existe um conflito entre suas reuniões agendadas", "warning", Some(false)),
    InsertNotification(Some(1), "Reunião confirmada",
                       "Sua reunião com Ana Beatriz foi confirmada", "success", Some(false)),
    InsertNotification(Some(1), "Lembrete: Reunião em 30 min",
                       "Você tem uma reunião em 30 minutos", "info", Some(false))
  ]

  /** The rows `createUser` makes from `us`, given ids from `from` on. */
  function StampedUsers(us: seq<InsertUser>, from: int, now: Instant): (r: seq<User>)
    ensures |r| == |us|
    ensures forall i :: 0 <= i < |us| ==> r[i] == StampUser(us[i], from + i, now)
  {
    seq(|us|, i requires 0 <= i < |us| => StampUser(us[i], from + i, now))
  }

  /** The rows `createMeeting` makes from `ms`, given ids from `from` on. */
  function StampedMeetings(ms: seq<InsertMeeting>, from: int, now: Instant): (r: seq<Meeting>)
    ensures |r| == |ms|
    ensures forall i :: 0 <= i < |ms| ==> r[i] == StampMeeting(ms[i], from + i, now)
  {
    seq(|ms|, i requires 0 <= i < |ms| => StampMeeting(ms[i], from + i, now))
  }

  /** The rows `createMeetingRequest` makes from `qs`, given ids from `from` on. */
  function StampedRequests(qs: seq<InsertMeetingRequest>, from: int, now: Instant): (r: seq<MeetingRequest>)
    ensures |r| == |qs|
    ensures forall i :: 0 <= i < |qs| ==> r[i] == StampRequest(qs[i], from + i, now)
  {
    seq(|qs|, i requires 0 <= i < |qs| => StampRequest(qs[i], from + i, now))
  }

  /** The rows `createNotification` makes from `ns`, given ids from `from` on. */
  function StampedNotifications(ns: seq<InsertNotification>, from: int, now: Instant): (r: seq<Notification>)
    ensures |r| == |ns|
    ensures forall i :: 0 <= i < |ns| ==> r[i] == StampNotification(ns[i], from + i, now)
  {
    seq(|ns|, i requires 0 <= i < |ns| => StampNotification(ns[i], from + i, now))
  }

  /**
   * `d` holds exactly the given rows, in order, with ids from 1 and every
   * timestamp `now`: the store after inserting `us`, `e`, `ms`, `qs` and `ns`
   * into empty tables.
   */
  ghost predicate Populated(d: Store.Db, us: seq<InsertUser>, e: InsertEvent, ms: seq<InsertMeeting>,
                            qs: seq<InsertMeetingRequest>, ns: seq<InsertNotification>, now: Instant) {
    && Store.DbValid(d)
    && Store.Values(d.users) == StampedUsers(us, 1, now)
    && Store.Values(d.events) == [StampEvent(e, 1, now)]
    && Store.Values(d.meetings) == StampedMeetings(ms, 1, now)
    && Store.Values(d.requests) == StampedRequests(qs, 1, now)
    && Store.Values(d.notifications) == StampedNotifications(ns, 1, now)
  }

  /** The store right after construction: exactly the seed rows. */
  ghost predicate Seeded(d: Store.Db, now: Instant) {
    Populated(d, SeedUsers, SeedEvent(now), SeedMeetings(now), SeedRequests(now), SeedNotifications, now)
  }

  /** One fabricante, three revendedores, then the admin; all active and sharing the password "123456". */
  lemma SeedUsersFacts(now: Instant)
    ensures var all := StampedUsers(SeedUsers, 1, now);
            && (forall u :: u in all ==> u.password == "123456" && u.isActive == Some(true))
            && |all| == 5
            && all[0].userType == "fabricante"
            && all[1].userType == "revendedor" && all[2].userType == "revendedor" && all[3].userType == "revendedor"
            && all[4].userType == "admin" && all[4].email == "admin@agis.com"
  {
    var all := StampedUsers(SeedUsers, 1, now);
    forall u | u in all ensures u.password == "123456" && u.isActive == Some(true) {
      var i :| 0 <= i < |all| && all[i] == u;
      assert UserFields(u) == SeedUsers[i];
    }
  }

  /** The three seed meetings all have user 1 as fabricante, at event 1, and lie in the future. */
  lemma SeedMeetingsFacts(now: Instant)
    ensures forall m :: m in StampedMeetings(SeedMeetings(now), 1, now) ==>
              m.fabricanteId == Some(1) && m.eventId == Some(1) && m.scheduledAt > now
  {
    var all := StampedMeetings(SeedMeetings(now), 1, now);
    forall m | m in all
      ensures m.fabricanteId == Some(1) && m.eventId == Some(1) && m.scheduledAt > now
    {
      var i :| 0 <= i < |all| && all[i] == m;
      assert MeetingFields(m) == SeedMeetings(now)[i];
    }
  }

  /** The only seed request is the pending one from user 4 to user 1. */
  lemma SeedRequestFacts(d: Store.Db, now: Instant)
    requires Store.DbValid(d) && Store.GetAllRequests(d) == StampedRequests(SeedRequests(now), 1, now)
    ensures Store.GetPendingRequests(d, 1) == Store.GetAllRequests(d)
    ensures |Store.GetAllRequests(d)| == 1
    ensures Store.GetAllRequests(d)[0].requesterId == Some(4) && Store.GetAllRequests(d)[0].targetId == Some(1)
  {
    assert RequestFields(Store.GetAllRequests(d)[0]) == SeedRequests(now)[0];
    Seqs.FilterAll(Store.GetAllRequests(d), Store.PendingFor(1));
  }

  /** The three seed notifications are all addressed to user 1 and unread. */
  lemma SeedNotificationFacts(d: Store.Db, now: Instant)
    requires Store.DbValid(d) && Store.GetAllNotifications(d) == StampedNotifications(SeedNotifications, 1, now)
    ensures Store.GetUserNotifications(d, 1) == Store.GetAllNotifications(d)
    ensures |Store.GetAllNotifications(d)| == 3
    ensures forall n :: n in Store.GetAllNotifications(d) ==> n.isRead == Some(false)
  {
    var all := Store.GetAllNotifications(d);
    forall n | n in all ensures n.userId == Some(1) && n.isRead == Some(false) {
      var i :| 0 <= i < |all| && all[i] == n;
      assert NotificationFields(n) == SeedNotifications[i];
    }
    Seqs.FilterAll(all, Store.AddressedTo(1));
  }

  // ----- the store -----------------------------------------------------------

  class MemStorage {
    var users: map<int, User>
    var events: map<int, Event>
    var meetings: map<int, Meeting>
    var meetingRequests: map<int, MeetingRequest>
    var notifications: map<int, Notification>

    var currentUserId: int
    var currentEventId: int
    var currentMeetingId: int
    var currentRequestId: int
    var currentNotificationId: int

    /** The tables as a value. */
    function State(): Store.Db
      reads this
    {
      Store.Db(Store.Table(users, currentUserId), Store.Table(events, currentEventId),
               Store.Table(meetings, currentMeetingId), Store.Table(meetingRequests, currentRequestId),
               Store.Table(notifications, currentNotificationId))
    }

    ghost predicate Valid()
      reads this
    {
      Store.DbValid(State())
    }

    constructor(now: Instant)
      ensures Valid() && Seeded(State(), now)
    {
      users, events, meetings, meetingRequests, notifications := map[], map[], map[], map[], map[];
      currentUserId, currentEventId, currentMeetingId, currentRequestId, currentNotificationId := 1, 1, 1, 1, 1;
      new;
      InitializeMockData(now);
    }

    /** Inserts the seed rows through the create methods, table by table. */
    method InitializeMockData(now: Instant)
      requires State() == Store.EmptyDb
      modifies this
      ensures Valid() && Seeded(State(), now)
    {
      Populate(SeedUsers, SeedEvent(now), SeedMeetings(now), SeedRequests(now), SeedNotifications, now);
    }

    /** The body of `initializeMockData` for any lists of rows. */
    method Populate(us: seq<InsertUser>, e: InsertEvent, ms: seq<InsertMeeting>,
                    qs: seq<InsertMeetingRequest>, ns: seq<InsertNotification>, now: Instant)
      requires State() == Store.EmptyDb
      modifies this
      ensures Valid() && Populated(State(), us, e, ms, qs, ns, now)
    {
      assert Valid();
      CreateAllUsers(us, now);
      var _ := CreateEvent(e, now);
      CreateAllMeetings(ms, now);
      CreateAllRequests(qs, now);
      CreateAllNotifications(ns, now);
    }

    /** `list.forEach(...)` inserting users, as the seed does. */
    method CreateAllUsers(us: seq<InsertUser>, now: Instant)
      requires Valid()
      modifies this
      ensures Valid() && State() == old(State()).(users := State().users)
      ensures Store.GetAllUsers(State()) == Store.GetAllUsers(old(State())) + StampedUsers(us, old(currentUserId), now)
    {
      ghost var start := State();
      for i := 0 to |us|
        invariant Valid() && State() == start.(users := State().users)
        invariant Store.GetAllUsers(State()) == Store.GetAllUsers(start) + StampedUsers(us[..i], start.users.next, now)
      {
        var row := CreateUser(us[i], now);
        assert StampedUsers(us[..i + 1], start.users.next, now) == StampedUsers(us[..i], start.users.next, now) + [row];
      }
      assert us[..|us|] == us;
    }

    method CreateAllMeetings(ms: seq<InsertMeeting>, now: Instant)
      requires Valid()
      modifies this
      ensures Valid() && State() == old(State()).(meetings := State().meetings)
      ensures Store.GetAllMeetings(State())
           == Store.GetAllMeetings(old(State())) + StampedMeetings(ms, old(currentMeetingId), now)
    {
      ghost var start := State();
      for i := 0 to |ms|
        invariant Valid() && State() == start.(meetings := State().meetings)
        invariant Store.GetAllMeetings(State())
               == Store.GetAllMeetings(start) + StampedMeetings(ms[..i], start.meetings.next, now)
      {
        var row := CreateMeeting(ms[i], now);
        assert StampedMeetings(ms[..i + 1], start.meetings.next, now)
            == StampedMeetings(ms[..i], start.meetings.next, now) + [row];
      }
      assert ms[..|ms|] == ms;
    }

    method CreateAllRequests(qs: seq<InsertMeetingRequest>, now: Instant)
      requires Valid()
      modifies this
      ensures Valid() && State() == old(State()).(requests := State().requests)
      ensures Store.GetAllRequests(State())
           == Store.GetAllRequests(old(State())) + StampedRequests(qs, old(currentRequestId), now)
    {
      ghost var start := State();
      for i := 0 to |qs|
        invariant Valid() && State() == start.(requests := State().requests)
        invariant Store.GetAllRequests(State())
               == Store.GetAllRequests(start) + StampedRequests(qs[..i], start.requests.next, now)
      {
        var row := CreateMeetingRequest(qs[i], now);
        assert StampedRequests(qs[..i + 1], start.requests.next, now)
            == StampedRequests(qs[..i], start.requests.next, now) + [row];
      }
      assert qs[..|qs|] == qs;
    }

    method CreateAllNotifications(ns: seq<InsertNotification>, now: Instant)
      requires Valid()
      modifies this
      ensures Valid() && State() == old(State()).(notifications := State().notifications)
      ensures Store.GetAllNotifications(State())
           == Store.GetAllNotifications(old(State())) + StampedNotifications(ns, old(currentNotificationId), now)
    {
      ghost var start := State();
      for i := 0 to |ns|
        invariant Valid() && State() == start.(notifications := State().notifications)
        invariant Store.GetAllNotifications(State())
               == Store.GetAllNotifications(start) + StampedNotifications(ns[..i], start.notifications.next, now)
      {
        var row := CreateNotification(ns[i], now);
        assert StampedNotifications(ns[..i + 1], start.notifications.next, now)
            == StampedNotifications(ns[..i], start.notifications.next, now) + [row];
      }
      assert ns[..|ns|] == ns;
    }

    /** `createUser`. */
    method CreateUser(user: InsertUser, now: Instant) returns (r: User)
      requires Valid()
      modifies this
      ensures Valid()
      ensures Store.Created(State(), r) == Store.CreateUser(old(State()), user, now)
    {
      var id := currentUserId;
      currentUserId := currentUserId + 1;
      r := StampUser(user, id, now);
      users := users[id := r];
    }

    /** `updateUser`. */
    method UpdateUser(id: int, user: UserPatch) returns (r: Option<User>)
      requires Valid()
      modifies this
      ensures Valid()
      ensures Store.Updated(State(), r) == Store.UpdateUser(old(State()), id, user)
    {
      if id !in users {
        return None;
      }
      var updated := MergeUser(users[id], user);
      users := users[id := updated];
      r := Some(updated);
    }

    /** `createEvent`. */
    method CreateEvent(event: InsertEvent, now: Instant) returns (r: Event)
      requires Valid()
      modifies this
      ensures Valid()
      ensures Store.Created(State(), r) == Store.CreateEvent(old(State()), event, now)
    {
      var id := currentEventId;
      currentEventId := currentEventId + 1;
      r := StampEvent(event, id, now);
      events := events[id := r];
    }

    /** `createMeeting`. */
    method CreateMeeting(meeting: InsertMeeting, now: Instant) returns (r: Meeting)
      requires Valid()
      modifies this
      ensures Valid()
      ensures Store.Created(State(), r) == Store.CreateMeeting(old(State()), meeting, now)
    {
      var id := currentMeetingId;
      currentMeetingId := currentMeetingId + 1;
      r := StampMeeting(meeting, id, now);
      meetings := meetings[id := r];
    }

    /** `updateMeeting`. */
    method UpdateMeeting(id: int, meeting: MeetingPatch, now: Instant) returns (r: Option<Meeting>)
      requires Valid()
      modifies this
      ensures Valid()
      ensures Store.Updated(State(), r) == Store.UpdateMeeting(old(State()), id, meeting, now)
    {
      if id !in meetings {
        return None;
      }
      var updated := MergeMeeting(meetings[id], meeting, now);
      meetings := meetings[id := updated];
      r := Some(updated);
    }

    /** `createMeetingRequest`. */
    method CreateMeetingRequest(request: InsertMeetingRequest, now: Instant) returns (r: MeetingRequest)
      requires Valid()
      modifies this
      ensures Valid()
      ensures Store.Created(State(), r) == Store.CreateMeetingRequest(old(State()), request, now)
    {
      var id := currentRequestId;
      currentRequestId := currentRequestId + 1;
      r := StampRequest(request, id, now);
      meetingRequests := meetingRequests[id := r];
    }

    /** `updateMeetingRequest`. */
    method UpdateMeetingRequest(id: int, request: RequestPatch, now: Instant) returns (r: Option<MeetingRequest>)
      requires Valid()
      modifies this
      ensures Valid()
      ensures Store.Updated(State(), r) == Store.UpdateMeetingRequest(old(State()), id, request, now)
    {
      if id !in meetingRequests {
        return None;
      }
      var updated := MergeRequest(meetingRequests[id], request, now);
      meetingRequests := meetingRequests[id := updated];
      r := Some(updated);
    }

    /** `createNotification`. */
    method CreateNotification(notification: InsertNotification, now: Instant) returns (r: Notification)
      requires Valid()
      modifies this
      ensures Valid()
      ensures Store.Created(State(), r) == Store.CreateNotification(old(State()), notification, now)
    {
      var id := currentNotificationId;
      currentNotificationId := currentNotificationId + 1;
      r := StampNotification(notification, id, now);
      notifications := notifications[id := r];
    }

    /** `markNotificationAsRead`. */
    method MarkNotificationAsRead(id: int)
      requires Valid()
      modifies this
      ensures Valid()
      ensures State() == Store.MarkNotificationAsRead(old(State()), id)
    {
      if id in notifications {
        notifications := notifications[id := notifications[id].(isRead := Some(true))];
      }
    }
  }
}
